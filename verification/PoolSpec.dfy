/** From a RunnerPool that the admission webhook accepts to the environment that the runner accepts. */
module PoolSpec {
  import opened Base

  const POD_NAME := "POD_NAME"
  const POD_NAMESPACE := "POD_NAMESPACE"
  const RUNNER_ORG := "RUNNER_ORG"
  const RUNNER_REPO := "RUNNER_REPO"
  const RUNNER_POOL_NAME := "RUNNER_POOL_NAME"
  const RUNNER_OPTION := "RUNNER_OPTION"

  const RESERVED: set<string> := {POD_NAME, POD_NAMESPACE, RUNNER_ORG, RUNNER_REPO, RUNNER_POOL_NAME, RUNNER_OPTION}

  // What an environment variable is set to: text, a field of the pod, or the JSON of the runner
  // options, in which omitempty drops an empty setup command.
  datatype Value = Text(s: string) | PodField(path: string) | Options(setup: Option<seq<string>>)

  datatype EnvVar = EnvVar(name: string, value: Value)

  function Marshal(setup: seq<string>): Value {
    Options(if setup == [] then None else Some(setup))
  }

  // A duration as it was written: left out, parsed, or not parseable.
  datatype Written = Omitted | Parsed(d: Duration) | Unparseable

  datatype Spec = Spec(
    repository: string,
    organization: string,
    replicas: int,
    maxRunnerPods: int,
    setupCommand: seq<string>,
    recreateDeadline: Written,
    extendDuration: Written,
    env: seq<EnvVar>
  )

  datatype Violation =
    | OneTarget
    | RepositoryForm
    | TooManyReplicas
    | BadRecreateDeadline
    | BadExtendDuration
    | ReservedName(i: nat)
    | RepositoryChanged
    | OrganizationChanged

  predicate OwnerSlashRepo(s: string) {
    exists i :: 0 < i < |s| - 1 && s[i] == '/' && '/' !in s[..i] && '/' !in s[i + 1..]
  }

  /** What each complaint means. An omitted recreate deadline does not parse; an omitted extension is fine. */
  ghost predicate Violates(s: Spec, v: Violation) {
    match v
    case OneTarget => (s.repository == "") == (s.organization == "")
    case RepositoryForm => s.repository != "" && !OwnerSlashRepo(s.repository)
    case TooManyReplicas => s.maxRunnerPods != 0 && s.replicas > s.maxRunnerPods
    case BadRecreateDeadline => !s.recreateDeadline.Parsed?
    case BadExtendDuration => s.extendDuration.Unparseable?
    case ReservedName(i) => i < |s.env| && s.env[i].name in RESERVED
    case RepositoryChanged => false
    case OrganizationChanged => false
  }

  ghost predicate Accepted(s: Spec) {
    forall v :: !Violates(s, v)
  }

  lemma TwoPartsMeanOneSlash(s: string)
    requires var split := Split(s, '/'); |split| == 2 && split[0] != "" && split[1] != ""
    ensures OwnerSlashRepo(s)
  {
    var split := Split(s, '/');
    JoinOfSplit(s, '/');
    assert Join(split[1..], '/') == split[1];
    assert s == split[0] + ['/'] + split[1];
    var i := |split[0]|;
    assert split[0] in split && split[1] in split;
    assert s[..i] == split[0] && s[i + 1..] == split[1] && s[i] == '/';
  }

  lemma OneSlashMeansTwoParts(s: string)
    requires OwnerSlashRepo(s)
    ensures var split := Split(s, '/'); |split| == 2 && split[0] != "" && split[1] != ""
  {
    var i :| 0 < i < |s| - 1 && s[i] == '/' && '/' !in s[..i] && '/' !in s[i + 1..];
    assert s == s[..i] + ['/'] + s[i + 1..];
    SplitOfPair(s[..i], s[i + 1..], '/');
  }

  lemma SplitsInTwo(s: string)
    ensures var split := Split(s, '/');
            OwnerSlashRepo(s) <==> |split| == 2 && split[0] != "" && split[1] != ""
  {
    hide OwnerSlashRepo, Split;
    var split := Split(s, '/');
    if OwnerSlashRepo(s) {
      OneSlashMeansTwoParts(s);
    }
    if |split| == 2 && split[0] != "" && split[1] != "" {
      TwoPartsMeanOneSlash(s);
    }
  }

  /** The validation of a spec: it complains of exactly what is wrong. */
  method ValidateCommon(s: Spec) returns (errs: seq<Violation>)
    ensures forall v :: v in errs <==> Violates(s, v)
  {
    errs := [];
    if (s.repository == "" && s.organization == "") || (s.repository != "" && s.organization != "") {
      errs := errs + [OneTarget];
    }
    if s.repository != "" {
      SplitsInTwo(s.repository);
      var split := Split(s.repository, '/');
      if |split| != 2 || split[0] == "" || split[1] == "" {
        errs := errs + [RepositoryForm];
      }
    }
    if !(s.maxRunnerPods == 0 || s.replicas <= s.maxRunnerPods) {
      errs := errs + [TooManyReplicas];
    }
    if !s.recreateDeadline.Parsed? {
      errs := errs + [BadRecreateDeadline];
    }
    if !s.extendDuration.Omitted? {
      if s.extendDuration.Unparseable? {
        errs := errs + [BadExtendDuration];
      }
    }
    for i := 0 to |s.env|
      invariant forall v :: v in errs <==> Violates(s, v) && (v.ReservedName? ==> v.i < i)
    {
      if s.env[i].name in RESERVED {
        errs := errs + [ReservedName(i)];
      }
    }
  }

  /** The validation of an update adds that repository and organization stay. */
  method ValidateUpdate(s: Spec, previous: Spec) returns (errs: seq<Violation>)
    ensures RepositoryChanged in errs <==> s.repository != previous.repository
    ensures OrganizationChanged in errs <==> s.organization != previous.organization
    ensures errs == [] <==> Accepted(s) && s.repository == previous.repository && s.organization == previous.organization
  {
    errs := [];
    if s.repository != previous.repository {
      errs := errs + [RepositoryChanged];
    }
    if s.organization != previous.organization {
      errs := errs + [OrganizationChanged];
    }
    var common := ValidateCommon(s);
    ghost var own := errs;
    errs := errs + common;
    if errs == [] {
      assert forall v :: v !in common;
    }
    if common != [] {
      assert common[0] in common;
    }
    assert RepositoryChanged !in common && OrganizationChanged !in common;
  }

  predicate IsOrgLevel(s: Spec) {
    s.organization != ""
  }

  function GetOwner(s: Spec): string {
    if IsOrgLevel(s) then s.organization else Split(s.repository, '/')[0]
  }

  // split[1] panics in the source when the repository has no slash.
  function GetRepository(s: Spec): Option<string> {
    if IsOrgLevel(s) then Some("")
    else
      var split := Split(s.repository, '/');
      if |split| < 2 then None else Some(split[1])
  }

  /** For an accepted spec the extraction is in range; a repository-level pool rebuilds its repository
      string from two nonempty slash-free parts, and an organization-level pool has no repository part. */
  lemma AcceptedTarget(s: Spec)
    requires Accepted(s)
    ensures GetRepository(s).Some?
    ensures IsOrgLevel(s) ==> GetOwner(s) == s.organization && GetRepository(s).value == ""
    ensures !IsOrgLevel(s) ==>
              && GetOwner(s) + "/" + GetRepository(s).value == s.repository
              && GetOwner(s) != "" && GetRepository(s).value != ""
              && '/' !in GetOwner(s) && '/' !in GetRepository(s).value
  {
    assert !Violates(s, OneTarget) && !Violates(s, RepositoryForm);
    if !IsOrgLevel(s) {
      SplitsInTwo(s.repository);
      JoinOfSplit(s.repository, '/');
      var split := Split(s.repository, '/');
      assert Join(split[1..], '/') == split[1];
      assert split[0] in split && split[1] in split;
    }
  }

  /** The environment that the reconciler gives the runner container. */
  function MakeEnv(s: Spec, poolName: string): seq<EnvVar> {
    [EnvVar(POD_NAME, PodField("metadata.name")),
     EnvVar(POD_NAMESPACE, PodField("metadata.namespace")),
     EnvVar(RUNNER_POOL_NAME, Text(poolName)),
     EnvVar(RUNNER_OPTION, Marshal(s.setupCommand)),
     if IsOrgLevel(s) then EnvVar(RUNNER_ORG, Text(s.organization)) else EnvVar(RUNNER_REPO, Text(s.repository))]
    + s.env
  }

  // A container's environment: the last binding of the list, else what its envFrom sources give.
  function Lookup(env: seq<EnvVar>, envFrom: map<string, string>, name: string): Option<Value> {
    if env == [] then if name in envFrom then Some(Text(envFrom[name])) else None
    else
      var n := |env| - 1;
      if env[n].name == name then Some(env[n].value) else Lookup(env[..n], envFrom, name)
  }

  // os.Getenv in a pod of this name and namespace. Option JSON is never empty text.
  datatype PodIdentity = PodIdentity(name: string, namespace: string)

  function Getenv(env: seq<EnvVar>, envFrom: map<string, string>, pod: PodIdentity, name: string): string {
    match Lookup(env, envFrom, name)
    case None => ""
    case Some(Text(s)) => s
    case Some(PodField(path)) => if path == "metadata.name" then pod.name else pod.namespace
    case Some(Options(_)) => "{}"
  }

  datatype RunnerEnvs = RunnerEnvs(podName: string, podNamespace: string, org: string, repo: string, poolName: string, setupCommand: seq<string>)

  predicate RequiredOk(e: RunnerEnvs) {
    && e.podName != "" && e.podNamespace != "" && e.poolName != ""
    && ((e.org == "") != (e.repo == ""))
  }

  /** newRunnerEnvs: read, check, and decode the options; an absent setup command decodes to none. */
  function NewRunnerEnvs(env: seq<EnvVar>, envFrom: map<string, string>, pod: PodIdentity): (r: Option<RunnerEnvs>)
    ensures r.Some? ==>
              && r.value.podName != "" && r.value.podNamespace != "" && r.value.poolName != ""
              && (r.value.org != "" || r.value.repo != "") && (r.value.org == "" || r.value.repo == "")
    ensures r.None? ==>
              || Getenv(env, envFrom, pod, POD_NAME) == "" || Getenv(env, envFrom, pod, POD_NAMESPACE) == ""
              || Getenv(env, envFrom, pod, RUNNER_POOL_NAME) == ""
              || (Getenv(env, envFrom, pod, RUNNER_ORG) == "" && Getenv(env, envFrom, pod, RUNNER_REPO) == "")
              || (Getenv(env, envFrom, pod, RUNNER_ORG) != "" && Getenv(env, envFrom, pod, RUNNER_REPO) != "")
              || !(Lookup(env, envFrom, RUNNER_OPTION).Some? && Lookup(env, envFrom, RUNNER_OPTION).value.Options?)
  {
    var e := RunnerEnvs(Getenv(env, envFrom, pod, POD_NAME), Getenv(env, envFrom, pod, POD_NAMESPACE),
                        Getenv(env, envFrom, pod, RUNNER_ORG), Getenv(env, envFrom, pod, RUNNER_REPO),
                        Getenv(env, envFrom, pod, RUNNER_POOL_NAME), []);
    if !RequiredOk(e) then None
    else
      match Lookup(env, envFrom, RUNNER_OPTION)
      case Some(Options(setup)) => Some(e.(setupCommand := if setup.Some? then setup.value else []))
      case _ => None
  }

  lemma {:induction false} LookupPastOthers(env: seq<EnvVar>, more: seq<EnvVar>, envFrom: map<string, string>, name: string)
    requires forall i :: 0 <= i < |more| ==> more[i].name != name
    ensures Lookup(env + more, envFrom, name) == Lookup(env, envFrom, name)
  {
    if more == [] {
      assert env + more == env;
    } else {
      var n := |more| - 1;
      assert (env + more)[..|env| + n] == env + more[..n];
      LookupPastOthers(env, more[..n], envFrom, name);
    }
  }

  /** The last binding of a name wins. */
  lemma LastBindingWins(env: seq<EnvVar>, envFrom: map<string, string>, i: nat)
    requires i < |env| && forall j :: i < j < |env| ==> env[j].name != env[i].name
    ensures Lookup(env, envFrom, env[i].name) == Some(env[i].value)
  {
    assert env == env[..i + 1] + env[i + 1..];
    LookupPastOthers(env[..i + 1], env[i + 1..], envFrom, env[i].name);
  }

  /** The user's own variables reach the container: each with its last value, over envFrom and over what
      the reconciler itself sets. */
  lemma UserVariablesReach(s: Spec, poolName: string, envFrom: map<string, string>, i: nat)
    requires i < |s.env| && forall j :: i < j < |s.env| ==> s.env[j].name != s.env[i].name
    ensures Lookup(MakeEnv(s, poolName), envFrom, s.env[i].name) == Some(s.env[i].value)
  {
    var env := MakeEnv(s, poolName);
    assert env[5 + i] == s.env[i];
    forall j | 5 + i < j < |env|
      ensures env[j].name != env[5 + i].name
    {
      assert env[j] == s.env[j - 5];
    }
    LastBindingWins(env, envFrom, 5 + i);
  }

  lemma NamesDiffer()
    ensures |RESERVED| == 6
    ensures POD_NAME != POD_NAMESPACE && RUNNER_ORG != RUNNER_REPO && RUNNER_OPTION != POD_NAMESPACE
  {
    assert |POD_NAME| == 8 && |RUNNER_ORG| == 10 && |RUNNER_REPO| == 11;
    assert |POD_NAMESPACE| == 13 && |RUNNER_OPTION| == 13 && |RUNNER_POOL_NAME| == 16;
    assert POD_NAMESPACE[0] != RUNNER_OPTION[0];
    assert RESERVED == {POD_NAME} + {POD_NAMESPACE} + {RUNNER_ORG} + {RUNNER_REPO} + {RUNNER_POOL_NAME} + {RUNNER_OPTION};
  }

  // What the reconciler's own bindings give.
  lemma OwnBindings(s: Spec, poolName: string, envFrom: map<string, string>)
    ensures var own := MakeEnv(s, poolName)[..5];
            && Lookup(own, envFrom, POD_NAME) == Some(PodField("metadata.name"))
            && Lookup(own, envFrom, POD_NAMESPACE) == Some(PodField("metadata.namespace"))
            && Lookup(own, envFrom, RUNNER_POOL_NAME) == Some(Text(poolName))
            && Lookup(own, envFrom, RUNNER_OPTION) == Some(Marshal(s.setupCommand))
            && Lookup(own, envFrom, RUNNER_ORG) ==
                 (if IsOrgLevel(s) then Some(Text(s.organization)) else Lookup([], envFrom, RUNNER_ORG))
            && Lookup(own, envFrom, RUNNER_REPO) ==
                 (if IsOrgLevel(s) then Lookup([], envFrom, RUNNER_REPO) else Some(Text(s.repository)))
  {
    NamesDiffer();
    assert |POD_NAME| == 8 && |RUNNER_ORG| == 10 && |RUNNER_REPO| == 11;
    assert |POD_NAMESPACE| == 13 && |RUNNER_OPTION| == 13 && |RUNNER_POOL_NAME| == 16;
    var own := MakeEnv(s, poolName)[..5];
    forall name: string
      ensures Lookup(own, envFrom, name) ==
              if own[4].name == name then Some(own[4].value)
              else if own[3].name == name then Some(own[3].value)
              else if own[2].name == name then Some(own[2].value)
              else if own[1].name == name then Some(own[1].value)
              else if own[0].name == name then Some(own[0].value)
              else Lookup([], envFrom, name)
    {
      assert own[..4][..3] == own[..3] && own[..3][..2] == own[..2] && own[..2][..1] == own[..1] && own[..1][..0] == [];
      assert Lookup(own[..1], envFrom, name) == if own[0].name == name then Some(own[0].value) else Lookup([], envFrom, name);
      assert Lookup(own[..3], envFrom, name) ==
             if own[2].name == name then Some(own[2].value)
             else if own[1].name == name then Some(own[1].value) else Lookup(own[..1], envFrom, name);
    }
  }

  // The variable that the pool itself does not set.
  function OtherTarget(s: Spec): string {
    if IsOrgLevel(s) then RUNNER_REPO else RUNNER_ORG
  }

  /** A pod of an accepted pool gets an environment that the runner accepts exactly when its envFrom
      sources do not set the other of RUNNER_ORG and RUNNER_REPO, which no admission check looks at.
      The runner then has exactly one of the two, from the spec, and the original setup command. */
  lemma AcceptedSpecRuns(s: Spec, poolName: string, envFrom: map<string, string>, pod: PodIdentity)
    requires Accepted(s) && poolName != "" && pod.name != "" && pod.namespace != ""
    ensures var r := NewRunnerEnvs(MakeEnv(s, poolName), envFrom, pod);
            && (r.Some? <==> OtherTarget(s) !in envFrom || envFrom[OtherTarget(s)] == "")
            && (r.Some? ==> r.value == RunnerEnvs(pod.name, pod.namespace, s.organization, s.repository, poolName, s.setupCommand))
  {
    var env := MakeEnv(s, poolName);
    var own := env[..5];
    assert env == own + s.env;
    forall name | name in RESERVED
      ensures Lookup(env, envFrom, name) == Lookup(own, envFrom, name)
    {
      forall i | 0 <= i < |s.env|
        ensures s.env[i].name != name
      {
        assert !Violates(s, ReservedName(i));
      }
      LookupPastOthers(own, s.env, envFrom, name);
    }
    OwnBindings(s, poolName, envFrom);
    assert !Violates(s, OneTarget);
    assert "metadata.name" != "metadata.namespace" by {
      assert |"metadata.name"| != |"metadata.namespace"|;
    }
  }

  /** A repository-level pool that is accepted, and whose pods never start. */
  lemma EnvFromCanBreakARunner()
    ensures var s := Spec("o/r", "", 1, 0, [], Parsed(24 * HOUR), Omitted, []);
            Accepted(s) && NewRunnerEnvs(MakeEnv(s, "pool"), map[RUNNER_ORG := "o"], PodIdentity("p", "ns")) == None
  {
    var s := Spec("o/r", "", 1, 0, [], Parsed(24 * HOUR), Omitted, []);
    assert s.repository[1] == '/' && '/' !in s.repository[..1] && '/' !in s.repository[2..];
    forall v
      ensures !Violates(s, v)
    {
    }
    AcceptedSpecRuns(s, "pool", map[RUNNER_ORG := "o"], PodIdentity("p", "ns"));
  }
}
