/** The mutation that the reconciler applies to the deployment of a pool. */
module Deployment {
  import opened Base
  import opened ManagerPass
  import opened PoolSpec

  const APP_NAME_KEY := "app.kubernetes.io/name"
  const COMPONENT_KEY := "app.kubernetes.io/component"
  const INSTANCE_KEY := "app.kubernetes.io/instance"
  const RUNNER_CONTAINER := "runner"

  // Parts of the API objects that the mutation copies without looking inside.
  type Opaque = string

  datatype Source = EmptyDir | FromSecret(name: string) | Given(source: Opaque)

  datatype Volume = Volume(name: string, source: Source)

  datatype Mount = Mount(name: string, path: string, readOnly: bool)

  // rest stands for the fields of a container that the mutation never touches.
  datatype Container = Container(
    name: string,
    image: string,
    pullPolicy: string,
    securityContext: Option<Opaque>,
    resources: Opaque,
    ports: seq<(string, int)>,
    mounts: seq<Mount>,
    envFrom: seq<Opaque>,
    env: seq<EnvVar>,
    rest: Opaque
  )

  datatype PodTemplate = PodTemplate(
    labels: Labels,
    annotations: Labels,
    serviceAccount: string,
    pullSecrets: seq<string>,
    automount: Option<bool>,
    volumes: seq<Volume>,
    nodeSelector: Labels,
    tolerations: seq<Opaque>,
    containers: seq<Container>,
    rest: Opaque
  )

  datatype State = State(labels: Labels, selector: Labels, replicas: int, template: PodTemplate, rest: Opaque)

  // The pool, with the part of its template that the mutation copies.
  datatype Pool = Pool(
    name: string,
    spec: Spec,
    labels: Labels,
    annotations: Labels,
    serviceAccount: string,
    pullSecrets: seq<string>,
    automount: Option<bool>,
    volumes: seq<Volume>,
    workVolume: Option<Opaque>,
    nodeSelector: Labels,
    tolerations: seq<Opaque>,
    image: string,
    pullPolicy: string,
    securityContext: Option<Opaque>,
    resources: Opaque,
    mounts: seq<Mount>,
    envFrom: seq<Opaque>
  )

  function LabelSet(rp: Pool): Labels {
    map[APP_NAME_KEY := "meows", COMPONENT_KEY := "runner", INSTANCE_KEY := rp.name]
  }

  function SecretName(rp: Pool): string {
    "runner-token-" + rp.name
  }

  method CopyInto(base: Labels, more: Labels) returns (m: Labels)
    ensures m == base + more
  {
    m := base;
    var todo := more.Keys;
    while todo != {}
      invariant todo <= more.Keys
      invariant m == base + (map k | k in more && k !in todo :: more[k])
      decreases todo
    {
      var k :| k in todo;
      m := m[k := more[k]];
      todo := todo - {k};
    }
    assert (map k | k in more && k !in todo :: more[k]) == more;
  }

  /** mergeMap: the second map wins. A nil map and an empty one read the same. */
  method MergeMap(m1: Labels, m2: Labels) returns (m: Labels)
    ensures m == m1 + m2
  {
    m := CopyInto(map[], m1);
    m := CopyInto(m, m2);
    assert map[] + m1 == m1;
  }

  // The index of the first container named runner, or the number of containers.
  function RunnerIndex(cs: seq<Container>): (i: nat)
    ensures i <= |cs|
    ensures i < |cs| ==> cs[i].name == RUNNER_CONTAINER
    ensures forall j :: 0 <= j < i ==> cs[j].name != RUNNER_CONTAINER
  {
    if cs == [] then 0
    else if cs[0].name == RUNNER_CONTAINER then 0
    else RunnerIndex(cs[1..]) + 1
  }

  method FindRunnerContainer(cs: seq<Container>) returns (i: nat)
    ensures i == RunnerIndex(cs)
  {
    i := 0;
    while i < |cs|
      invariant i <= |cs| && forall j :: 0 <= j < i ==> cs[j].name != RUNNER_CONTAINER
    {
      if cs[i].name == RUNNER_CONTAINER {
        return;
      }
      i := i + 1;
    }
  }

  const NEW_CONTAINER := Container(RUNNER_CONTAINER, "", "", None, "", [], [], [], [], "")

  function Volumes(rp: Pool): seq<Volume> {
    rp.volumes + [Volume("var-dir", EmptyDir),
                  Volume("work-dir", if rp.workVolume.None? then EmptyDir else Given(rp.workVolume.value)),
                  Volume(SecretName(rp), FromSecret(SecretName(rp)))]
  }

  function Configured(c: Container, rp: Pool, defaultImage: string): Container {
    c.(image := if rp.image != "" then rp.image else defaultImage,
       pullPolicy := if rp.pullPolicy != "" then rp.pullPolicy else c.pullPolicy,
       securityContext := rp.securityContext,
       resources := rp.resources,
       ports := [("metrics", 8080)],
       mounts := rp.mounts + [Mount("var-dir", "/var/meows", false), Mount("work-dir", "/runner/_work", false),
                              Mount(SecretName(rp), "/var/meows/secrets", true)],
       envFrom := rp.envFrom,
       env := MakeEnv(rp.spec, rp.name))
  }

  function Containers(cs: seq<Container>, rp: Pool, defaultImage: string): seq<Container> {
    var i := RunnerIndex(cs);
    if i < |cs| then cs[i := Configured(cs[i], rp, defaultImage)]
    else cs + [Configured(NEW_CONTAINER, rp, defaultImage)]
  }

  function Mutated(d: State, rp: Pool, defaultImage: string): State {
    State(d.labels + LabelSet(rp), LabelSet(rp), rp.spec.replicas,
          PodTemplate(d.template.labels + rp.labels + LabelSet(rp),
                      d.template.annotations + rp.annotations,
                      rp.serviceAccount, rp.pullSecrets,
                      if rp.automount.Some? then rp.automount else d.template.automount,
                      Volumes(rp), rp.nodeSelector, rp.tolerations,
                      Containers(d.template.containers, rp, defaultImage),
                      d.template.rest),
          d.rest)
  }

  lemma FirstRunner(cs: seq<Container>, i: nat)
    requires i < |cs| && cs[i].name == RUNNER_CONTAINER && forall j :: 0 <= j < i ==> cs[j].name != RUNNER_CONTAINER
    ensures RunnerIndex(cs) == i
  {
  }

  lemma AppendedThenSet(cs: seq<Container>, rp: Pool, defaultImage: string)
    requires RunnerIndex(cs) == |cs|
    ensures (cs + [NEW_CONTAINER])[|cs| := Configured(NEW_CONTAINER, rp, defaultImage)] == Containers(cs, rp, defaultImage)
  {
  }

  // What the runner program gets from its environment, for a pod of an accepted pool.
  ghost predicate EnvServes(env: seq<EnvVar>, rp: Pool, envFrom: map<string, string>, pod: PodIdentity) {
    var r := NewRunnerEnvs(env, envFrom, pod);
    && (r.Some? <==> (rp.spec.organization != "" && (RUNNER_REPO !in envFrom || envFrom[RUNNER_REPO] == ""))
                     || (rp.spec.organization == "" && (RUNNER_ORG !in envFrom || envFrom[RUNNER_ORG] == "")))
    && (r.Some? ==> r.value == RunnerEnvs(pod.name, pod.namespace, rp.spec.organization, rp.spec.repository, rp.name, rp.spec.setupCommand))
  }

  // The user's variables, each with its last value.
  ghost predicate EnvKeeps(env: seq<EnvVar>, rp: Pool, envFrom: map<string, string>) {
    forall i :: 0 <= i < |rp.spec.env| && (forall j :: i < j < |rp.spec.env| ==> rp.spec.env[j].name != rp.spec.env[i].name) ==>
      Lookup(env, envFrom, rp.spec.env[i].name) == Some(rp.spec.env[i].value)
  }

  /** What a runner container has to be. */
  ghost predicate RunnerServes(k: Container, rp: Pool, defaultImage: string) {
    && k.name == "runner"
    && k.image == (if rp.image == "" then defaultImage else rp.image)
    && (rp.pullPolicy != "" ==> k.pullPolicy == rp.pullPolicy)
    && k.securityContext == rp.securityContext && k.resources == rp.resources && k.ports == [("metrics", 8080)]
    && k.envFrom == rp.envFrom
    && rp.mounts <= k.mounts
    && Mount("var-dir", "/var/meows", false) in k.mounts && Mount("work-dir", "/runner/_work", false) in k.mounts
    && Mount("runner-token-" + rp.name, "/var/meows/secrets", true) in k.mounts
    && (forall envFrom :: EnvKeeps(k.env, rp, envFrom))
    && (Accepted(rp.spec) && rp.name != "" ==>
          forall envFrom, pod: PodIdentity :: pod.name != "" && pod.namespace != "" ==> EnvServes(k.env, rp, envFrom, pod))
  }

  // The labels of a pod: the selector's win over the user's, and the user's over those from before.
  predicate LabelsServe(labels: Labels, was: Labels, rp: Pool) {
    && labels.Keys == was.Keys + rp.labels.Keys + LabelSet(rp).Keys
    && forall k :: k in labels ==>
         labels[k] == (if k in LabelSet(rp) then LabelSet(rp)[k] else if k in rp.labels then rp.labels[k] else was[k])
  }

  predicate AnnotationsServe(annotations: Labels, was: Labels, rp: Pool) {
    && annotations.Keys == was.Keys + rp.annotations.Keys
    && forall k :: k in annotations ==> annotations[k] == (if k in rp.annotations then rp.annotations[k] else was[k])
  }

  /** What the pods of the deployment have to be, their runner container among them. */
  ghost predicate TemplateServes(t: PodTemplate, was: PodTemplate, rp: Pool, defaultImage: string) {
    && LabelsServe(t.labels, was.labels, rp) && AnnotationsServe(t.annotations, was.annotations, rp)
    && t.serviceAccount == rp.serviceAccount && t.pullSecrets == rp.pullSecrets
    && t.automount == (if rp.automount.Some? then rp.automount else was.automount)
    && t.nodeSelector == rp.nodeSelector && t.tolerations == rp.tolerations && t.rest == was.rest
    && rp.volumes <= t.volumes
    && Volume("var-dir", EmptyDir) in t.volumes
    && Volume("work-dir", if rp.workVolume.Some? then Given(rp.workVolume.value) else EmptyDir) in t.volumes
    && Volume("runner-token-" + rp.name, FromSecret("runner-token-" + rp.name)) in t.volumes
    && RunnerIndex(t.containers) < |t.containers|
    && RunnerServes(t.containers[RunnerIndex(t.containers)], rp, defaultImage)
  }

  /** What the deployment has to be. */
  ghost predicate DeploymentServes(d: State, was: State, rp: Pool, defaultImage: string) {
    && d.replicas == rp.spec.replicas && d.rest == was.rest
    && d.selector == map["app.kubernetes.io/name" := "meows", "app.kubernetes.io/component" := "runner",
                         "app.kubernetes.io/instance" := rp.name]
    && d.labels.Keys == was.labels.Keys + d.selector.Keys
    && (forall k :: k in d.labels ==> d.labels[k] == (if k in d.selector then d.selector[k] else was.labels[k]))
    && TemplateServes(d.template, was.template, rp, defaultImage)
  }

  lemma MountsInPlace(rp: Pool, mounts: seq<Mount>)
    requires mounts == rp.mounts + [Mount("var-dir", "/var/meows", false), Mount("work-dir", "/runner/_work", false),
                                    Mount(SecretName(rp), "/var/meows/secrets", true)]
    ensures rp.mounts <= mounts
    ensures Mount("var-dir", "/var/meows", false) in mounts && Mount("work-dir", "/runner/_work", false) in mounts
    ensures Mount("runner-token-" + rp.name, "/var/meows/secrets", true) in mounts
  {
    var n := |rp.mounts|;
    assert mounts[n] == Mount("var-dir", "/var/meows", false) && mounts[n + 1] == Mount("work-dir", "/runner/_work", false);
    assert mounts[n + 2] == Mount(SecretName(rp), "/var/meows/secrets", true);
  }

  lemma ConfiguredServes(c: Container, rp: Pool, defaultImage: string)
    requires c.name == RUNNER_CONTAINER
    ensures RunnerServes(Configured(c, rp, defaultImage), rp, defaultImage)
  {
    hide MakeEnv, NewRunnerEnvs, Lookup, Accepted;
    var k := Configured(c, rp, defaultImage);
    MountsInPlace(rp, k.mounts);
    forall envFrom
      ensures EnvKeeps(k.env, rp, envFrom)
    {
      forall i | 0 <= i < |rp.spec.env| && (forall j :: i < j < |rp.spec.env| ==> rp.spec.env[j].name != rp.spec.env[i].name)
        ensures Lookup(k.env, envFrom, rp.spec.env[i].name) == Some(rp.spec.env[i].value)
      {
        UserVariablesReach(rp.spec, rp.name, envFrom, i);
      }
    }
    if Accepted(rp.spec) && rp.name != "" {
      forall envFrom, pod: PodIdentity | pod.name != "" && pod.namespace != ""
        ensures EnvServes(k.env, rp, envFrom, pod)
      {
        AcceptedSpecRuns(rp.spec, rp.name, envFrom, pod);
      }
    }
  }

  lemma VolumesInPlace(rp: Pool)
    ensures var vs := Volumes(rp);
            && rp.volumes <= vs && Volume("var-dir", EmptyDir) in vs
            && Volume("work-dir", if rp.workVolume.Some? then Given(rp.workVolume.value) else EmptyDir) in vs
            && Volume("runner-token-" + rp.name, FromSecret("runner-token-" + rp.name)) in vs
  {
    var vs := Volumes(rp);
    var n := |rp.volumes|;
    assert vs[n] == Volume("var-dir", EmptyDir);
    assert vs[n + 1] == Volume("work-dir", if rp.workVolume.Some? then Given(rp.workVolume.value) else EmptyDir);
    assert vs[n + 2] == Volume(SecretName(rp), FromSecret(SecretName(rp)));
  }

  /** Every container but the first one named runner keeps its content and its place, and a runner
      container is there afterwards. */
  lemma OtherContainersKept(cs: seq<Container>, rp: Pool, defaultImage: string)
    ensures var r := Containers(cs, rp, defaultImage);
            var i := RunnerIndex(cs);
            && |r| == (if i < |cs| then |cs| else |cs| + 1) && RunnerIndex(r) == i
            && (forall j :: 0 <= j < |cs| && j != i ==> r[j] == cs[j])
            && (i < |cs| ==> r[i].rest == cs[i].rest && (rp.pullPolicy == "" ==> r[i].pullPolicy == cs[i].pullPolicy))
  {
    var r := Containers(cs, rp, defaultImage);
    var i := RunnerIndex(cs);
    FirstRunner(r, i);
  }

  lemma LabelsMerged(was: Labels, rp: Pool)
    ensures LabelsServe(was + rp.labels + LabelSet(rp), was, rp)
  {
    hide LabelSet;
  }

  lemma AnnotationsMerged(was: Labels, rp: Pool)
    ensures AnnotationsServe(was + rp.annotations, was, rp)
  {
  }

  lemma ContainersServe(cs: seq<Container>, rp: Pool, defaultImage: string)
    ensures var r := Containers(cs, rp, defaultImage);
            RunnerIndex(r) < |r| && RunnerServes(r[RunnerIndex(r)], rp, defaultImage)
  {
    hide RunnerServes, Configured;
    var i := RunnerIndex(cs);
    OtherContainersKept(cs, rp, defaultImage);
    ConfiguredServes(if i < |cs| then cs[i] else NEW_CONTAINER, rp, defaultImage);
  }

  /** The mutation makes the deployment what the pool needs, from any state of it. */
  lemma MutatedServes(d: State, rp: Pool, defaultImage: string)
    ensures DeploymentServes(Mutated(d, rp, defaultImage), d, rp, defaultImage)
  {
    hide RunnerServes, LabelsServe, AnnotationsServe, Containers, Volumes;
    VolumesInPlace(rp);
    LabelsMerged(d.template.labels, rp);
    AnnotationsMerged(d.template.annotations, rp);
    ContainersServe(d.template.containers, rp, defaultImage);
  }

  /** The object in hand during CreateOrUpdate. */
  class Object {
    var state: State

    constructor (state: State)
      ensures this.state == state
    {
      this.state := state;
    }

    method AddRunnerContainerIfNotExists()
      modifies this
      ensures var cs := old(state.template.containers);
              state == old(state).(template := old(state.template).(
                containers := if RunnerIndex(cs) < |cs| then cs else cs + [NEW_CONTAINER]))
    {
      var cs := state.template.containers;
      var i := FindRunnerContainer(cs);
      if i < |cs| {
        return;
      }
      state := state.(template := state.template.(containers := cs + [NEW_CONTAINER]));
    }

    method Mutate(rp: Pool, defaultImage: string)
      modifies this
      ensures state == Mutated(old(state), rp, defaultImage)
      ensures DeploymentServes(state, old(state), rp, defaultImage)
    {
      hide DeploymentServes;
      MutatedServes(state, rp, defaultImage);
      ghost var was := state;
      var own := LabelSet(rp);
      var labels := MergeMap(state.labels, own);
      var podLabels := MergeMap(state.template.labels, rp.labels);
      podLabels := MergeMap(podLabels, own);
      var annotations := MergeMap(state.template.annotations, rp.annotations);
      state := state.(labels := labels, selector := own, replicas := rp.spec.replicas);
      var t := state.template.(labels := podLabels, annotations := annotations,
                               serviceAccount := rp.serviceAccount, pullSecrets := rp.pullSecrets,
                               volumes := Volumes(rp), nodeSelector := rp.nodeSelector, tolerations := rp.tolerations);
      if rp.automount.Some? {
        t := t.(automount := rp.automount);
      }
      state := state.(template := t);

      AddRunnerContainerIfNotExists();
      var cs := state.template.containers;
      if RunnerIndex(was.template.containers) == |was.template.containers| {
        FirstRunner(cs, |was.template.containers|);
        AppendedThenSet(was.template.containers, rp, defaultImage);
      }
      var i := FindRunnerContainer(cs);
      cs := cs[i := Configured(cs[i], rp, defaultImage)];
      state := state.(template := state.template.(containers := cs));
    }
  }

  lemma MergeTwice(m: Labels, a: Labels, b: Labels)
    ensures m + a + b + a + b == m + a + b
  {
  }

  lemma ConfiguredTwice(c: Container, rp: Pool, defaultImage: string)
    ensures Configured(Configured(c, rp, defaultImage), rp, defaultImage) == Configured(c, rp, defaultImage)
  {
  }

  lemma ContainersTwice(cs: seq<Container>, rp: Pool, defaultImage: string)
    ensures Containers(Containers(cs, rp, defaultImage), rp, defaultImage) == Containers(cs, rp, defaultImage)
  {
    OtherContainersKept(cs, rp, defaultImage);
    var r := Containers(cs, rp, defaultImage);
    var i := RunnerIndex(cs);
    assert i < |r| && RunnerIndex(r) == i;
    ConfiguredTwice(if i < |cs| then cs[i] else NEW_CONTAINER, rp, defaultImage);
    assert r[i := r[i]] == r;
  }

  /** Reconciling twice is reconciling once: for every deployment and pool the mutation is a fixed
      point, so that an unchanged pool never causes another update. */
  lemma MutationIsAFixedPoint(d: State, rp: Pool, defaultImage: string)
    ensures Mutated(Mutated(d, rp, defaultImage), rp, defaultImage) == Mutated(d, rp, defaultImage)
  {
    hide Containers, Volumes;
    ContainersTwice(d.template.containers, rp, defaultImage);
    MergeTwice(d.labels, map[], LabelSet(rp));
    MergeTwice(d.template.labels, rp.labels, LabelSet(rp));
    MergeTwice(d.template.annotations, map[], rp.annotations);
    assert d.labels + map[] == d.labels && d.template.annotations + map[] == d.template.annotations;
    assert Mutated(d, rp, defaultImage).labels + map[] == Mutated(d, rp, defaultImage).labels;
    assert Mutated(d, rp, defaultImage).template.annotations + map[] == Mutated(d, rp, defaultImage).template.annotations;
  }

  predicate Matches(selector: Labels, labels: Labels) {
    forall k :: k in selector ==> k in labels && labels[k] == selector[k]
  }

  lemma KeysDiffer()
    ensures APP_NAME_KEY != COMPONENT_KEY && COMPONENT_KEY != INSTANCE_KEY && INSTANCE_KEY != APP_NAME_KEY
    ensures HASH_LABEL !in {APP_NAME_KEY, COMPONENT_KEY, INSTANCE_KEY}
    ensures NAME_LABEL !in {APP_NAME_KEY, COMPONENT_KEY, INSTANCE_KEY}
  {
    assert |APP_NAME_KEY| == 22 && |COMPONENT_KEY| == 27 && |INSTANCE_KEY| == 26;
    assert |HASH_LABEL| == 17 && |NAME_LABEL| == 32;
  }

  // The pods of the template carry the selector labels.
  lemma TemplateMatchesSelector(d: State, rp: Pool, defaultImage: string, labels: Labels)
    requires Matches(Mutated(d, rp, defaultImage).template.labels, labels)
    ensures Matches(LabelSet(rp), labels)
  {
    var own := LabelSet(rp);
    forall k | k in own
      ensures k in labels && labels[k] == own[k]
    {
      assert Mutated(d, rp, defaultImage).template.labels[k] == own[k];
    }
  }

  // Naming and releasing change none of the selector labels.
  lemma SelectedStaySelected(rp: Pool, po: KubePod)
    requires Matches(LabelSet(rp), po.labels)
    ensures Matches(LabelSet(rp), Named(po).labels) && Matches(LabelSet(rp), Unlinked(po).labels)
  {
    KeysDiffer();
    assert LabelSet(rp).Keys == {APP_NAME_KEY, COMPONENT_KEY, INSTANCE_KEY};
  }

  lemma OnlyOnePoolSelects(rp: Pool, other: Pool, labels: Labels)
    requires Matches(LabelSet(rp), labels) && other.name != rp.name
    ensures !Matches(LabelSet(other), labels)
  {
    KeysDiffer();
    assert INSTANCE_KEY in LabelSet(other) && LabelSet(other)[INSTANCE_KEY] == other.name;
    assert INSTANCE_KEY in LabelSet(rp) && LabelSet(rp)[INSTANCE_KEY] == rp.name;
  }

  /** Whatever labels the user put in the template, a pod made from it is selected by the deployment
      and by the manager of its pool, also after it was named and after it was released, and by no
      manager of another pool in the namespace. */
  lemma TemplatePodsStaySelected(d: State, rp: Pool, other: Pool, defaultImage: string, po: KubePod)
    requires Matches(Mutated(d, rp, defaultImage).template.labels, po.labels)
    ensures Matches(LabelSet(rp), po.labels)
    ensures Matches(LabelSet(rp), Named(po).labels) && Matches(LabelSet(rp), Unlinked(po).labels)
    ensures Matches(LabelSet(rp), Unlinked(Named(po)).labels)
    ensures other.name != rp.name ==> !Matches(LabelSet(other), po.labels)
  {
    hide Matches, LabelSet, Mutated;
    TemplateMatchesSelector(d, rp, defaultImage, po.labels);
    SelectedStaySelected(rp, po);
    SelectedStaySelected(rp, Named(po));
    if other.name != rp.name {
      OnlyOnePoolSelects(rp, other, po.labels);
    }
  }
}
