# A model of meows in Dafny

meows keeps pools of ephemeral GitHub Actions runners on Kubernetes. Four programs share the work. The
controller reconciles `RunnerPool` objects, and starts for each of them a goroutine that manages its
pods and one that keeps its registration token fresh. The program inside each runner pod registers
once, takes one job and then waits to be deleted. The Slack agent moves the deletion time of finished pods.

This project models those programs and proves what holds of them together, over every history: any
interleaving of their API calls, any failure of a call, a crash of a container or of the controller at
any point, any order of the listed pods, and any change of settings between two passes.

`dafny verify dfyconfig.toml` checks all of it.

## Modules

| file | what it holds |
|---|---|
| `Base.dfy` | time, int32 wrap-around, `strings.Split`, namespaced names |
| `RunnerPod.dfy` | the program in a runner pod: the listener as a machine that can crash between any two acts, the same listener as the straight-line method, and the HTTP handlers |
| `ManagerPass.dfy` | one pass of the runner manager: the loop as methods over an array of pods, proved against the function `Pass` |
| `PassProperties.dfy` | what `Pass` means: deletion rule, survivors, greedy releases, budget arithmetic |
| `VisitProperties.dfy` | what one visit means, call by call: when each call is made, what it says, and in which order |
| `Extender.dfy` | the Slack buttons and their deadline arithmetic |
| `PoolWorld.dfy` | one pool as a timed transition system: clock, cluster, manager and agent, call by call, and the invariant that every reachable state keeps |
| `PoolBudget.dfy`, `PoolReports.dfy`, `PoolLifetime.dfy`, `PoolDeletion.dfy`, `PoolExtension.dfy`, `PoolProtection.dfy`, `PoolNaming.dfy` | the main results over all histories of that system |
| `PoolOverflow.dfy` | the exact limits on the settings for the release budget, with the history that passes them |
| `PoolTrace.dfy` | the passes of that system are the passes of the method |
| `PoolExamples.dfy` | concrete histories that reach the edges of these results |
| `TokenUpdater.dfy` | the token loop, its freshness and its issuance rate |
| `RunnerMetrics.dfy`, `RunnerManager.dfy` | the metrics index, and the process map that drives it |
| `GithubRunners.dfy` | listing runners by page and removing those without a pod |
| `Reconciler.dfy` | the order of one reconciliation against everything that can happen between its calls |
| `PoolSpec.dfy`, `Deployment.dfy` | admission, the environment of the runner container, and the deployment mutation |

## How the parts connect

A pass is written three times, each for its own purpose. `ManageProcess.MaintainRunnerPods` is the loop
as the controller has it: it edits the listed pods in place and keeps a shrinking budget. Its contract
equates the result with `Pass`, a fold of `Visit` over the list, and `PassProperties` and `VisitProperties` say what that fold
and its step mean without following their control flow. In `PoolWorld` a pass is spread over time: one step reads a
status, and each call that `Visit` makes of it is a step of its own, so that pods, agent, cluster and
configuration act in between and the manager can die there. `PoolTrace.CompletedPassIsTheMethod` shows that the
calls of a pass that comes to its end are those of the method.

The listener is likewise both a machine (`RunnerPod.Next`), which can be cut at every act, and a
straight-line method (`Runner.RunListener`), which by `UndisturbedEnd` ends where the machine ends.

`denyDisruption` is an answer of its own in every visit, because the pass reads it for each pod
without holding the lock. The time of a pass is fixed before the first status is read, so a pod may finish
after it and still be seen in that pass. "Busy" means busy in the runner list that was fetched before.

## Where the code does not keep what one might expect

- **A job's end can go unreported.** The listener reads the clock for the finish time (runner/runner.go:204)
  before it publishes the end (lines 216-223). When the pass whose window covers that time visits the pod in between, it
  reads "running", and the next pass finds the time before its own window. `PoolReports.LatePublicationIsMissed`
  proves the loss for every such history and `PoolExamples.MissedReportExists` gives one. The other ways are a failed
  read of the status in that visit, notification being off, a report that fails (controllers/runner_manager.go:420-425),
  a manager that dies before its report, and a pod that the covering pass has not listed
  or that is gone by then. None of them is made good later, because the window has moved on
  (`PoolReports.MissedForever`). The exact condition is in two lemmas. If the covering pass, of which there is one
  (`PoolReports.ExactlyOneWindow`), visits the pod, then by `PoolReports.CoveringVisitDecides` the end is reported iff that visit
  learned of it and the manager lived to make its very next call, and reaches Slack iff that call succeeded. If it
  never comes to that visit, the end is missed (`PoolReports.UnvisitedIsMissed`).
- **A job's end can be reported twice**, when it falls between the start of a pass and the visit of
  that pass. That is the only way, and two is the most (`PoolReports.ReportedAtMostOnce`); the bound is
  reached (`PoolExamples.ReportedTwiceExists`).
- **The release budget is int32 arithmetic.** `maxRunnerPods - replicas - unlabelled` can wrap to a huge
  number. `PassProperties.HeadroomExactlyWhen` says when, for one pass. Over whole histories it never happens while the largest
  replica count and the largest headroom configured add up to at most 2^31 (`PoolBudget.SettingsNeverWrap`), and
  beyond that it can happen (`PoolOverflow.SettingsNeverWrapExactlyWhen`). One configuration alone never gets
  there (`PoolBudget.FixedConfigBound`).
- **A pod can be deleted for its age just after its job ended.** The recreate rule (controllers/runner_manager.go:455-464) acts on
  a status read before and on a runner list fetched before that. A pod past its recreate deadline may take a job, finish
  it, ask for extension and publish that, all between the two and the deletion, which then removes it without any
  extension (`PoolExamples.FinishedPodDeletedForAge`). `PoolDeletion.LandedDeletion` shows that there is no other way: a finished pod
  that asked for extension is deleted only past F + D (its floor, with clicks), unless the visit read it before it
  published its end and condemned it by that rule.
- **An "extend" click can shorten a life, in two ways.** A pod without a deadline of its own lives until its finish
  plus the configured extension; a click that reads it then asks for now + 2 h instead
  (`Extender.ExtendKeepsUnsetDeadline`). And a deadline that is set moves earlier when the controller sets it between the
  agent's read and the agent's PUT. With settings of at most six hours that is the only way
  (`PoolExtension.SentDeadlineIsEarlierExactlyWhen`), and a click that reads a deadline never asks for an earlier one
  (`PoolExtension.ClickAsksForNoEarlierDeadline`). `PoolExamples.UnsetDeadlineShortened` and
  `PoolExamples.SetDeadlineShortened` are histories in which a pod with a five-hour extension is deleted three hours early. The floor
  that holds for every visit that reads the end is `PoolLifetime.NeverDeletedBeforeFloor`. The controller's PUT can likewise undo a click
  (`PoolExtension.ControllerDeadlineIsEarlierExactlyWhen`).
- **Four failures in a row are harmless only for tokens valid for 5 min + 1 s or more**: the loop waits one second
  after each issuance before it looks again. Every validity between 5 min and that has a counterexample
  (`TokenUpdater.ShortTokensLapse`).
- **`envFrom` is not validated.** It can inject the other of `RUNNER_ORG` and `RUNNER_REPO`, and then the pods of an
  accepted pool never start. `PoolSpec.AcceptedSpecRuns` says exactly when.

Where the documentation differs from the code, the model follows the code:

- docs/runner-pod-api.md says that a pod that is not debugging serves its state alone; a PUT sets the
  deletion time in any state (runner/runner.go:257-260), so `Coherent` allows it there.
- docs/design.md lets the pod register before it initializes, notify the agent and publish its own deletion time; in the code
  setup comes before registration, and the controller notifies and PUTs the deadline.
- docs/crd-runner-pool.md asks for `maxRunnerPods >= replicas`; the webhook also accepts 0.

## Assumptions

- Clock: one wall clock, which does not go back. Instants and durations are unbounded integers of nanoseconds;
  the overflow of Go's `time.Duration` is not modelled.
- API server: lists and reads are current (no cache lag). An update or patch that fails has had no effect, and one based on
  an outdated object fails. A disruption budget disappears only after its pod.
  A deletion that succeeds removes the pod at once; a terminating pod that is still listed and serving is not modelled.
- Pods: names are not empty and never used again; pod IPs are not passed on while a call is under way. A new pod
  carries the `pod-template-hash` label and no `runner-pod-name` label. The deployment keeps at
  most as many labelled pods as the largest replica count configured so far. Replica counts are not negative, as the
  deployment API demands; admission then makes `maxRunnerPods` not negative either. The set of pods in the system is
  the set that the pool's selector lists (`Deployment.TemplatePodsStaySelected`).
- Var directory: it outlives container restarts, and looking for the flag file does not fail.
- Token secret: nobody but the updater edits it once it holds a token. It may be missing or unreadable at any time.
- Slack: a pod has buttons only after a report of it reached Slack, and the agent handles one click at a time. Its read of a
  status and its PUT are two steps; the controller may act in between.
- Environment: the setup command holds no `$(NAME)` that the kubelet would expand and no `$$`, which it would turn into `$`; with
  such text the runner does not get the command as it was written.
- Finalizer: admission adds it on creation, and nobody but the reconciler takes it away.
- GitHub: runners carry the label that the pod registered with.

## Model

| member | source | states |
|---|---|---|
| RunnerPod.OneRegistration | runner/runner.go:123-182 | over every sequence of acts, errors, PUTs and container restarts, setup, configure and listen are each begun at most once in the pod's life, "running" implies configured, and "debugging" implies listened |
| RunnerPod.ServedStatusCoherent | runner/runner.go:184-224 | every status ever served: "debugging" comes with finish time, extend flag and one of the four results, any other state with none of them |
| RunnerPod.ServedEndTellsTheJob | runner/runner.go:190-224 | every end ever served tells of the files that the job left: result, extension, job information and channel |
| RunnerPod.NextKeepsValid | runner/runner.go:123-224 | the invariant behind both is kept by every act, PUT and crash |
| RunnerPod.DirtyForever | runner/runner.go:123-131 | once a container restarts on a used directory, no later act sets up, registers or listens; it serves nothing but unset or "stale" |
| RunnerPod.RestartDirtiesIffStarted | runner/runner.go:123-134 | a restart leaves a dirty pod exactly when the flag file had been written, and then a job can no longer finish |
| RunnerPod.FinishIsFinal | runner/runner.go:190-224 | a pod that is done never finishes again, and the published end changes only in its deletion time |
| RunnerPod.ResultOf | runner/runner.go:190-201 | the result is one of the four; failure wins over cancelled, cancelled over success, and unknown means no flag at all |
| RunnerPod.UndisturbedIsARun | runner/runner.go:123-182 | an uninterrupted listener is one of the histories of the machine |
| RunnerPod.UndisturbedEnd | runner/runner.go:123-182 | where the machine ends, failure by failure: counters, flag file, state and published fields |
| RunnerPod.Runner.RunListener | runner/runner.go:123-224 | the straight-line goroutine ends exactly there, and it returns an error iff it is neither stale nor debugging |
| RunnerPod.Runner.Reboot | runner/runner.go:73-95 | a restarted container forgets its status and keeps the flag file |
| RunnerPod.Runner.DeletionTimeHandler | runner/runner.go:240-263 | the codes 405, 415, 400 and 204, and the deadline changes exactly on 204, in any state |
| RunnerPod.Runner.StatusHandler | runner/runner.go:265-291 | 405 iff not GET, 500 iff the status cannot be encoded, and else the present status; it changes nothing |
| ManagerPass.RunnerBusy | controllers/runner_manager.go:520-527 | busy exactly when the first runner of that name is busy; false without one |
| ManagerPass.CountUnlabelledPods | controllers/runner_manager.go:372-378 | counts the listed pods without the hash label |
| ManagerPass.Budget | controllers/runner_manager.go:385 | the int32 budget equals maxRunnerPods - replicas - unlabelled exactly when that fits an int32 |
| ManagerPass.VisitPod | controllers/runner_manager.go:388-516 | the loop body makes the calls, leaves the labels and the budget, and panics, as `Visit` says in terms of the deletion rule, the reporting window and protection |
| ManagerPass.AdoptPod | controllers/runner_manager.go:466-515 | protect, relabel, unlink: stopping at the first failure, spending budget only on a successful unlink |
| ManagerPass.PanicEndsPass | controllers/runner_manager.go:388-516 | after a nil dereference no further pod is visited or changed |
| ManagerPass.ManageProcess.Update | controllers/runner_manager.go:196-224 | new settings are in force even when the agent's URL does not parse; then, and only then, it fails and the old agent stays |
| ManagerPass.ManageProcess.VisitPods | controllers/runner_manager.go:388-516 | the in-place loop equals `Pass` on list, calls and panic, for any list, budget and answers |
| ManagerPass.ManageProcess.MaintainRunnerPods | controllers/runner_manager.go:367-518 | the whole pass is `Pass` with the int32 budget of its list, in the window from the previous pass to this one, which becomes the next window's start |
| PassProperties.PanicsExactlyWhen | controllers/runner_manager.go:412-447 | a pass dereferences nil iff some running pod serves "debugging" without the finish time the settings need |
| VisitProperties.VisitPanics | controllers/runner_manager.go:413-433 | a visit dereferences nil iff it reads "debugging" without a finish time while notification is on, or while the extension decides; it then makes no call |
| VisitProperties.VisitPosts | controllers/runner_manager.go:413-426 | when a visit reports, and what: the served result and job information, to the job's channel or else the pool's, with the buttons iff the job asked for extension and the setting is not 0 |
| VisitProperties.VisitDeletesExactly | controllers/runner_manager.go:402-464 | when a visit deletes, case by case |
| VisitProperties.VisitSetsDeadline | controllers/runner_manager.go:447-452 | when a visit gives its pod a deadline, and which |
| VisitProperties.VisitProtects | controllers/runner_manager.go:467-499 | at every budget: a kept pod in use is protected iff disruption is denied and it does not carry its name, and relabelled iff besides the protection succeeded |
| VisitProperties.VisitReleases | controllers/runner_manager.go:501-513 | when a visit releases its pod, and from which labels |
| VisitProperties.VisitEdits | controllers/runner_manager.go:491-508 | the labels that the listed pod is left with |
| VisitProperties.VisitInTurn | controllers/runner_manager.go:388-516 | at most one call of each kind: report, deletion, deadline, protection, relabelling, release, in this order |
| PassProperties.DeletesByTheRule | controllers/runner_manager.go:402-464 | a pass asks to delete exactly the pods that the rule condemns: stale; debugging past its effective deadline; neither busy nor debugging and past the recreate deadline |
| PassProperties.SurvivorsAreSpared | controllers/runner_manager.go:388-516 | when deletions succeed, the survivors are the filter of the list by that rule |
| PassProperties.VisitUnlinks | controllers/runner_manager.go:466-515 | one visit releases its pod iff the budget is positive and the pod is a candidate, and pays one for it |
| PassProperties.UnlinksGreedily | controllers/runner_manager.go:388-516 | the released pods are the first min(max(0, budget), all) candidates of the list, in its order |
| PassProperties.UnlinksWithinBudget | controllers/runner_manager.go:501-513 | at most max(0, budget) releases, whatever the order and failures |
| PassProperties.HeadroomRespected | controllers/runner_manager.go:385 | spending the budget takes the unlabelled count to exactly max(count, maxRunnerPods - replicas) when nothing wraps |
| PassProperties.HeadroomExactlyWhen | controllers/runner_manager.go:385 | that bound holds iff the exact difference is at least -2^31 |
| PoolWorld.StepKeepsSound | controllers/runner_manager.go:276-297 | every step of pods, agent, cluster, configuration and manager keeps the basic invariant |
| PoolWorld.RunKeepsSound | controllers/runner_manager.go:276-297 | so does every history |
| PoolWorld.VisitNamesItsPod | controllers/runner_manager.go:388-516 | every call of a visit is about the visited pod |
| PoolBudget.SnapshotCounts | controllers/runner_manager.go:372-378 | the count of a fresh list is the number of released pods of the pool |
| PoolBudget.StepKeepsBudget | controllers/runner_manager.go:372-386 | released pods plus releases still owed stay within the largest headroom configured so far |
| PoolBudget.RunKeepsBudget | controllers/runner_manager.go:372-386 | ... in every history, with passes cut short and pods vanishing at any point |
| PoolBudget.SettingsNeverWrap | controllers/runner_manager.go:385 | no budget wraps in any history whose settings have at most p replicas and a headroom of at most h, with p + max(0, h) at most 2^31 |
| PoolBudget.WrappedExactly | controllers/runner_manager.go:385 | a budget counts as wrapped exactly when a pass begins whose difference leaves the int32 range |
| PoolOverflow.SettingsCanWrap | controllers/runner_manager.go:385 | for all other limits that int32 settings can reach, a history within them whose budget wraps |
| PoolOverflow.SettingsNeverWrapExactlyWhen | controllers/runner_manager.go:385 | within limits p and h no history wraps a budget iff p + max(0, h) is at most 2^31 |
| PoolBudget.PoolSizeBounded | controllers/runner_manager.go:501-513 | under such settings, however they change, the pool never has more than p + max(0, h) pods |
| PoolBudget.FixedConfigBound | controllers/runner_manager.go:372-513 | with one configuration, whatever it is, no budget wraps and the pool never has more than max(replicas, maxRunnerPods) pods |
| PoolReports.VisitReports | controllers/runner_manager.go:415-426 | a visit reports iff it reads "debugging" with a finish time after the previous pass, notification on; the report is its first and only one |
| PoolReports.RunKeepsTold | controllers/runner_manager.go:368-426 | the accounting of reports against finish time, window and place in the list, in every history |
| PoolReports.ReportedAtMostOnce | controllers/runner_manager.go:368-426 | at most one report a pod, sent or delivered; two only if a pass read it as finished after that pass began |
| PoolReports.LateExactly | controllers/runner_manager.go:368-426 | a pod counts as read late exactly when a visit reads its end after the pass began |
| PoolReports.CoveringVisitDecides | controllers/runner_manager.go:368-426 | an end in the window of a pass that visits the pod: in every continuation its reports have grown by one iff the visit learned of it, with notification on, and the report was made before the manager died; its delivered reports iff, besides, the report succeeded; they stay as they are otherwise |
| PoolReports.ReportTellsTheJob | controllers/runner_manager.go:415-426 | in every history a report carries the result and information of the job that the pod's listener ran, to the channel that the job chose or else the pool's |
| PoolReports.UnvisitedIsMissed | controllers/runner_manager.go:276-297 | an end is missed when the manager dies, or begins a pass that has not listed the pod, before any visit of it |
| PoolReports.RunKeepsTiled | controllers/runner_manager.go:276-297 | the windows of one process tile the time from its start to its latest pass; failed list calls lose none |
| PoolReports.ExactlyOneWindow | controllers/runner_manager.go:368-370 | a finish time after the process began and not after its latest pass is in exactly one window |
| PoolReports.MissedForever | controllers/runner_manager.go:415-426 | once the covering visit is over, no continuation sends or delivers a report of the pod again |
| PoolReports.LatePublicationIsMissed | runner/runner.go:204-223 | an end published after the visit of its covering pass is never reported |
| PoolExamples.MissedReportExists | runner/runner.go:204-223 | a history with such an end |
| PoolExamples.ReportedTwiceExists | controllers/runner_manager.go:368-426 | a history with two reports of one job |
| PoolLifetime.RunKeepsLives | controllers/runner_manager.go:428-453 | without the delete button, every deadline held or on its way is at or beyond the floor |
| PoolLifetime.ReadNeverPanics | controllers/runner_manager.go:413-447 | no status that a pod can serve makes the pass dereference nil |
| PoolLifetime.CondemnsByRule | controllers/runner_manager.go:402-464 | a visit asks for deletion iff the rule condemns the pod |
| PoolLifetime.DeletedExactlyAfterExtension | controllers/runner_manager.go:412-453 | without clicks: a visit that reads the end, at F, of a pod that asked for extension condemns it iff now > F + D, whether or not any PUT arrived |
| PoolLifetime.NeverDeletedBeforeFloor | controllers/runner_manager.go:412-453 | with any "extend" clicks between any calls: no visit that reads the end condemns the pod before F + min(D, 2 h) |
| PoolLifetime.CondemnedIsGone | controllers/runner_manager.go:402-464 | a condemned pod whose deletion succeeds is gone in every continuation, once that call has been made |
| PoolLifetime.EndsExactlyAfterExtension | controllers/runner_manager.go:412-453 | without clicks: the first visit that reads the end with now > F + D, and whose deletion succeeds, ends the pod for good; one that reads the end earlier asks for no deletion of it |
| PoolDeletion.RunKeepsDeciding | controllers/runner_manager.go:396-464 | in every history a pending deletion was decided by its own visit's read, and the pod has not finished since unless that read came before its end |
| PoolDeletion.LandedDeletion | controllers/runner_manager.go:396-464 | a deletion that lands on a finished pod that asked for extension comes from a pass with now > F + D (the floor, with clicks), or else from a visit that read the pod before it published its end and found it past the recreate deadline and not busy |
| PoolExamples.FinishedPodDeletedForAge | controllers/runner_manager.go:455-464 | a history without clicks in which such a deletion lands with the whole extension left |
| PoolLifetime.StaleIsCondemned | controllers/runner_manager.go:402-410 | in every history a pod read as stale is condemned |
| PoolProtection.RunKeepsGuarded | controllers/runner_manager.go:467-513 | budgets before names, names before releases, in every reachable state |
| PoolProtection.NamedPodsAreProtected | controllers/runner_manager.go:467-499 | a live pod labelled with its own name has a budget with minAvailable 1 that selects it and no other pod |
| PoolProtection.ReleasedPodsAreProtected | controllers/runner_manager.go:467-513 | every live pod without the hash label has its budget, unless the very visit that released it read denyDisruption as false, whatever other visits of it or of other pods have read |
| PoolProtection.UndeniedExactly | controllers/runner_manager.go:467-513 | a pod becomes such an exception exactly at a successful release by such a visit |
| PoolNaming.StepKeepsNames | controllers/runner_manager.go:491-508 | no step takes a live pod's name away |
| PoolNaming.KeptPodIsProtected | controllers/runner_manager.go:467-499 | at any budget: once the calls of a visit that kept a pod in use, with disruption denied, have succeeded, the pod has its budget and its name in every continuation, for as long as it lives |
| PoolTrace.RunKeepsTraced | controllers/runner_manager.go:388-516 | calls made and calls pending are those of `Pass` on the visited part of the list |
| PoolTrace.CompletedPassIsTheMethod | controllers/runner_manager.go:367-518 | a pass that ends has made exactly the calls of the method, with its budget, on the same list and answers, and no pass panics |
| Extender.Extended | agent/socket.go:158-172 | the lesser of two hours more than before and six hours from now |
| Extender.ExtendKeepsSetDeadline | agent/socket.go:158-172 | a click moves a set deadline earlier iff it lay beyond the limit |
| Extender.ExtendKeepsUnsetDeadline | agent/socket.go:158-172 | without a set deadline the effective one is kept iff it is at most one extension away |
| Extender.ClicksOnlyExtend | agent/socket.go:158-172 | any sequence of clicks from any deadline: the first moves it back iff it lay beyond the limit, no later one does, each adds at most 2 h, and none passes the limit |
| Extender.PodOfInvertsNamespacedName | agent/socket.go:132-138 | the button value decodes to the pod it was made for, and nothing else is accepted |
| Extender.Handle | agent/socket.go:43-188 | which event leads to which deadline for which pod, and when handling it fails |
| Extender.PutDeletionTime | agent/socket.go:190-229 | the PUT is skipped in the development mode; its failure is announced, and only an undelivered announcement is an error |
| Extender.IsButton | agent/socket.go:100-130 | a click on exactly one button with exactly this block and action |
| PoolExtension.RunKeepsCapped | agent/socket.go:158-172 | with settings of at most six hours, every deadline set, pending or in the agent's hand stays within six hours of now, and the agent's is the one its click asked for |
| PoolExtension.DeadlinesAreCapped | agent/socket.go:158-172 | ... so every served deadline does, with both buttons, restarts and lost calls |
| PoolExtension.ClickAsksForNoEarlierDeadline | agent/socket.go:158-172 | in every such history a click that reads a deadline asks for none earlier |
| PoolExtension.SentDeadlineIsEarlierExactlyWhen | agent/socket.go:153-191 | the agent's PUT moves a set deadline earlier iff the controller has set one since the click's read, later than what the click asks for |
| PoolExtension.ControllerDeadlineIsEarlierExactlyWhen | controllers/runner_manager.go:447-452 | the controller's PUT moves a set deadline earlier iff the agent has set a later one since the pass read the pod, under any settings |
| PoolExamples.UnsetDeadlineShortened | agent/socket.go:158-172 | a history in which the controller's deadline is lost and a click deletes the pod three hours early |
| PoolExamples.SetDeadlineShortened | agent/socket.go:153-191 | a history in which the agent's PUT moves a set deadline three hours earlier, and the pod is deleted then |
| TokenUpdater.StoredExpiry | controllers/secret_updater.go:238-240 | the stored expiry is early by less than a second and never late |
| TokenUpdater.NotBefore | controllers/secret_updater.go:210-228 | an update is due iff there is no readable expiry or it is less than 5 min away; else the time to wait for is 5 min before it and not in the past |
| TokenUpdater.UpdateProcess.OneTurn | controllers/secret_updater.go:159-199 | one turn with its three waiting times and its failures |
| TokenUpdater.UpdateProcess.Loop | controllers/secret_updater.go:159-199 | any number of turns is the fold of one |
| TokenUpdater.WaitsExactly | controllers/secret_updater.go:159-199 | the waiting times: one second after a missing secret and after an issuance, one minute after any other failure, and with nothing due until five minutes before the stored expiry |
| TokenUpdater.StoresExactly | controllers/secret_updater.go:230-251 | a turn stores a token with its expiry iff an update was due and both calls succeeded, and else changes nothing |
| TokenUpdater.NextKeepsFresh | controllers/secret_updater.go:159-228 | a turn within the tolerance keeps the token valid and the next wake-up in time |
| TokenUpdater.IssuedIsFresh | controllers/secret_updater.go:230-251 | every issuance starts a fresh life, whatever failed or lapsed before |
| TokenUpdater.StaysFresh | controllers/secret_updater.go:159-228 | with k failures in a row and a latency bound within the 5 min margin, the token never lapses, in any history |
| TokenUpdater.AnewIsTheSameLoop | controllers/secret_updater.go:159-199 | counting failures from an issuance on changes nothing of what the loop does |
| TokenUpdater.FreshAfterIssuance | controllers/secret_updater.go:159-228 | from any start and any earlier turns: from a turn that stores a token on, with k failures in a row and a latency bound within the margin, no stored token lapses |
| TokenUpdater.FourFailuresAreHarmless | controllers/secret_updater.go:159-228 | four failures in a row with under a minute of latency, after the first issuance or any later one, for every validity of 5 min + 1 s or more |
| TokenUpdater.ShortTokensLapse | controllers/secret_updater.go:197 | for every validity strictly between, a history of four failures that lets the token lapse |
| TokenUpdater.IssuanceRate | controllers/secret_updater.go:182-228 | two issuances in a row are more than L - 5 min - 1 s apart |
| TokenUpdater.IssuanceCount | controllers/secret_updater.go:182-228 | the number of issuances in a span of time has a linear bound |
| TokenUpdater.TurnsAreFew | controllers/secret_updater.go:159-199 | the loop does not spin: at most two turns for each issuance, one for each failure, and one more, when a turn takes any time before its check |
| TokenUpdater.TurnRate | controllers/secret_updater.go:159-199 | so the turns that do not fail have a linear bound in time |
| RunnerMetrics.PutAgrees | metrics/controller.go:78-98 | updating a runner keeps both vectors and the index naming the same runners |
| RunnerMetrics.DropAgrees | metrics/controller.go:100-131 | so does dropping runners, and no other pool changes |
| RunnerMetrics.PutAllValues | controllers/runner_manager.go:340-343 | a repeated name ends with its last listed values |
| RunnerMetrics.Gauge | metrics/controller.go:87-97 | 1 means on and 0 means off |
| RunnerMetrics.RefreshIsExact | controllers/runner_manager.go:334-350 | after a refresh the pool's series are exactly the listed runners with their last values, and other pools are untouched |
| RunnerMetrics.InterleavingIsUnseen | metrics/controller.go:78-131 | however the calls of several pools interleave, each pool's part is what its own calls make of it |
| RunnerMetrics.InterleavedRefreshIsExact | controllers/runner_manager.go:334-350 | a refresh is exact for its pool even when other pools' calls come between any two of its own |
| RunnerMetrics.Difference | controllers/runner_manager.go:352-365 | exactly the previous names that are not current |
| RunnerMetrics.Metrics.UpdateRunnerMetrics | metrics/controller.go:78-98 | sets index and both gauges of one runner |
| RunnerMetrics.Metrics.DeleteRunnerMetrics | metrics/controller.go:100-116 | drops these runners, and the inner set with the last of them |
| RunnerMetrics.Metrics.DeleteAllRunnerMetrics | metrics/controller.go:118-131 | drops every series of one pool |
| RunnerManager.DifferenceOf | controllers/runner_manager.go:352-365 | the two loops compute `Difference`, in order |
| RunnerManager.OneGoroutinePerPool | controllers/runner_manager.go:64-95 | no pool has two live goroutines |
| RunnerManager.StartConsistent | controllers/runner_manager.go:64-95 | starting keeps entries, goroutines and metrics in step |
| RunnerManager.StopConsistent | controllers/runner_manager.go:230-255 | stopping keeps them in step and touches no other pool |
| RunnerManager.RefreshConsistent | controllers/runner_manager.go:334-350 | a refresh keeps every entry's last names equal to its metrics |
| RunnerManager.Manager.StartOrUpdate | controllers/runner_manager.go:64-95 | starts one goroutine for a new pool and none for a known one; fails after StopAll; a failure starts nothing |
| RunnerManager.Manager.Stop | controllers/runner_manager.go:97-109 | always succeeds, leaves no entry, goroutine or metrics of that pool, and touches no other |
| RunnerManager.Manager.StopAll | controllers/runner_manager.go:111-120 | ends all goroutines; afterwards the map is nil and nothing starts |
| RunnerManager.Manager.UpdateMetrics | controllers/runner_manager.go:334-350 | the pool's series become exactly the list, and the books stay consistent |
| GithubRunners.HasLabels | github/client.go:40-51 | true exactly when every required label is carried |
| GithubRunners.FilterPage | github/client.go:189-195 | the loop over one page is the filter by labels |
| GithubRunners.FilterKeepsExactly | github/client.go:189-195 | the filter keeps exactly the runners with all labels |
| GithubRunners.FilterOne | github/client.go:189-195 | one runner is kept iff it carries all labels |
| GithubRunners.FilterConcat | github/client.go:189-195 | the filter of two lists in a row: order and repetitions stay |
| GithubRunners.EveryoneConcat | github/client.go:167-206 | the runners of the pages come page by page |
| GithubRunners.ListRunners | github/client.go:163-207 | for any answers of the server: the filtered concatenation of all pages up to a last one, an error if one fails first, and else a loop still going with the filtered concatenation so far |
| GithubRunners.FindPod | controllers/runner_manager.go:561-568 | finds a listed pod of that name iff there is one |
| GithubRunners.OrphansExactly | controllers/runner_manager.go:529-542 | the removal wants exactly the offline runners without a listed pod |
| GithubRunners.OrphansConcat | controllers/runner_manager.go:529-542 | they are removed in the order of the list |
| GithubRunners.DeleteOfflineRunners | controllers/runner_manager.go:529-542 | removes all of them when no call fails, and else those before the first failure |
| GithubRunners.DeleteAllRunners | controllers/runner_manager.go:544-559 | the removal at the end of a process: all listed runners, those before the first failure, or none when the list fails or is not over in time |
| GithubRunners.ListingIsIsolated | controllers/runner_manager.go:325-332 | no pool lists a runner that carries only another pool's label |
| GithubRunners.RemovalIsIsolated | controllers/runner_manager.go:529-559 | neither removal touches a runner of another pool |
| Base.NamespacedNameInjective | controllers/runner_manager.go:226-228 | namespace/name determines both parts when they have no slash |
| Base.JoinOfSplit | agent/socket.go:132-138 | splitting and joining gives the string back, in parts without the separator |
| Base.SplitOfPair | agent/socket.go:132-138 | joining two such parts and splitting gives the two parts back |
| PoolSpec.ValidateCommon | api/v1alpha1/runnerpool_types.go:236-274 | the list of complaints is exactly what is wrong with the spec |
| PoolSpec.ValidateUpdate | api/v1alpha1/runnerpool_types.go:219-234 | an update passes iff the spec is accepted and repository and organization stay, so that running processes keep their target |
| PoolSpec.SplitsInTwo | api/v1alpha1/runnerpool_types.go:243-247 | the split test accepts exactly one slash between nonempty parts |
| PoolSpec.AcceptedTarget | api/v1alpha1/runnerpool_types.go:285-303 | for an accepted spec the extraction is in range and rebuilds the repository string |
| PoolSpec.AcceptedSpecRuns | controllers/runnerpool_controller.go:418-474 | the environment built for an accepted spec passes the runner's check iff envFrom does not set the other target, and yields the one target and the original setup command |
| PoolSpec.UserVariablesReach | controllers/runnerpool_controller.go:468-473 | the user's own variables reach the container, each with its last value |
| PoolSpec.NewRunnerEnvs | runner/enviroments.go:25-61 | the runner starts only with names, pool and exactly one target, and refuses only without them or without readable options |
| PoolSpec.EnvFromCanBreakARunner | controllers/runnerpool_controller.go:368 | an accepted pool whose pods never start |
| Deployment.MergeMap | controllers/runnerpool_controller.go:174-186 | the union in which the second map wins |
| Deployment.FindRunnerContainer | controllers/runnerpool_controller.go:395-403 | the first container named runner |
| Deployment.Object.AddRunnerContainerIfNotExists | controllers/runnerpool_controller.go:405-416 | appends a runner container iff there is none, and changes nothing else |
| Deployment.MutatedServes | controllers/runnerpool_controller.go:285-378 | whatever the deployment was, it then has the spec's replicas, the selector, labels and annotations by precedence, the token's volume, and a runner container with the right image, ports, mounts and environment: an accepted pool's runner gets what `AcceptedSpecRuns` promises |
| Deployment.Object.Mutate | controllers/runnerpool_controller.go:285-378 | the in-place mutation does just that |
| Deployment.OtherContainersKept | controllers/runnerpool_controller.go:395-416 | every other container keeps content and place |
| Deployment.MutationIsAFixedPoint | controllers/runnerpool_controller.go:285-378 | mutating twice is mutating once, for every deployment and pool |
| Deployment.TemplatePodsStaySelected | controllers/runnerpool_controller.go:165-172 | user labels never override the selector; pods of the template match their manager's selector before and after naming and release, and no other pool's |
| Reconciler.NextKeepsOrderly | controllers/runnerpool_controller.go:68-154 | the order of starting and ending survives every call, failure, crash and outside change |
| Reconciler.RunKeepsOrderly | controllers/runnerpool_controller.go:68-154 | ... in every history |
| Reconciler.BoundMeansReady | controllers/runnerpool_controller.go:118-154 | bound, or managed, implies that the secret was found with token and expiry, and the deployment reconciled, before |
| Reconciler.FinishedMeansStopped | controllers/runnerpool_controller.go:82-107 | once the finalizer is gone, neither process of the pool is alive |
| Reconciler.FinishedStartsNothing | controllers/runnerpool_controller.go:82-107 | and no later reconciliation of that object starts one |
| Reconciler.WholeLife | controllers/runnerpool_controller.go:68-154 | a history from nothing to a bound and managed pool, and on to its end |
| Reconciler.Controller.Reconcile | controllers/runnerpool_controller.go:68-154 | without an error a live pool ends with its updater alive, and with an issued secret also deployed, managed and bound; a pool being deleted ends without processes and finalizer; an error is reported iff something that it comes to goes wrong |
| Reconciler.Controller.End | controllers/runnerpool_controller.go:82-107 | manager, then updater, then finalizer; an error iff a stop or the update fails, and then the object stays |
| Reconciler.Controller.Start | controllers/runnerpool_controller.go:109-154 | the branch of a live pool: when it fails, and what it leaves otherwise |
| Reconciler.Controller.StartIssued | controllers/runnerpool_controller.go:121-154 | the same from the secret on |
| Reconciler.Controller.ReconcileSecret | controllers/runnerpool_controller.go:256-277 | whether to go on is whether the secret is annotated; a missing one is created empty |
| Reconciler.Controller.StartUpdaterIfNone | controllers/runnerpool_controller.go:126-129 | afterwards an updater runs, unless none did and none could be started, which is an error |
| Reconciler.Controller.StartProcess | controllers/runnerpool_controller.go:126-154 | the updater starts before the wait for the token; with an issued secret the pool ends deployed, managed and bound |
| Reconciler.Controller.Continue | controllers/runnerpool_controller.go:139-153 | deployment, then manager, then status, each iff those before it succeeded; an error iff one of them fails or the object has changed |

## Left out

- RunnerManager.Manager.StopProcess: the removal of all runners after a stop is `GithubRunners.DeleteAllRunners` and is not called from here; the goroutine drops its errors.
- RunnerManager.Manager.UpdateMetrics: one atomic step; that passes of different pools may interleave at single metric calls is `RunnerMetrics.InterleavedRefreshIsExact`.
- Reconciler.Controller.Reconcile: the methods take one reconciliation without interference; what happens between its calls is the subject of the machine and its lemmas.
- Deployment.Object.Mutate: Go slices are values here, so that an append into the spare capacity of the pool's own slice is not modelled; nil and empty maps read the same; the defaulting of the API server is left out.
- TokenUpdater.UpdateProcess.Loop: the turns are given from outside, and cancellation is their end.
- The process map of the secret updater (controllers/secret_updater.go:49-98) has the shape of the manager's and appears only as a flag in `Reconciler`.
- The check of owner and repository against the configured expressions and the choice of the GitHub credential are single actions that succeed or fail.
- The launch of the listener and its retries, job information, the metrics of the runner pod, Slack messages, HTTP servers and clients, GitHub client factories, command lines, leader election and generated code would add only easy members.
