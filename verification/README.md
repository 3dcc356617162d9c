# ONP power lifecycle: a verified model

ONP (the on-prem node provisioner) drives physical hosts through a crash-tolerant protocol. A
`Machine` object goes `"" -> Off -> Booting -> Ready -> Draining -> ShuttingDown -> Off / Failed`.
Three controllers and one on-node agent work on it, and they coordinate only through the Machine's
status and annotations, the Node and the NodePool status. This project models that protocol and
proves what it keeps over every run. `dafny verify dfyconfig.toml` checks all of it.

## How the model is built

- **One API call per step.** A reconcile pass of the machine controller is a `Flight`: a program
  counter naming its next API call, and its own copy of the Machine. `Lifecycle.Exec` performs one
  call with any outcome the API server may return (success, Invalid, TooManyRequests, any other
  error). Between any two calls anything else may happen: a crash of the controller, an agent
  reading any old version of the Machine, an agent restart, a boot of the host, time passing, and any
  change of Node, pods, pools, annotations or spec. The theorems about one Machine quantify over all
  such event sequences.
- **Writes as the API server sees them.** `Status().Update` is refused unless the version still
  matches; a merge patch writes the fields it carries, as worked out from an earlier read, over
  whatever the object is by then; the log of effects (power-on, power-off, cordon,
  eviction, state change, request) is what the theorems talk about.
- **The code's own form.** `MachinePass.MachineReconciler`, `ShutdownAgent.ShutdownReconciler`,
  `ScalePasses.ScaleDownReconciler` and `ScalePasses.ScaleUpReconciler` are classes with the methods
  of the original, and each pass is proved to be exactly a run of the steps above. The counting,
  merging and selection loops are loops, each proved against an independent definition.
- **The cluster.** `Clusters` puts any number of Machines under their pools. A scale decision is
  three steps (read and decide, stamp the cooldown anchor, set the annotation), and everything else
  may fall between them.

| module | what it holds |
|---|---|
| `Api` | Machine, Node, Pod, NodePool, and the read-only predicates about them |
| `Template`, `WakeFidelity` | cordons, template application, and the fit simulation against it |
| `Resources` | bound requests, synthetic allocatable, the resource check |
| `Lifecycle` | the machine controller, one API call at a time, and every other event |
| `MachinePass` | the reconcile pass as straight-line code, refining `Lifecycle` |
| `PowerOffSafety`, `OneShotTriggers`, `NoFlapping`, `AlwaysOnNodes`, `CordonOwnership`, `ProtectedPods`, `Deadlines`, `AnchorTimes`, `HostPower` | theorems over all runs of one Machine |
| `PassOutcome` | what one undisturbed pass comes to, as a table over the fields of the objects, and what failed calls do |
| `ShutdownAgent` | the agent, across its restarts and the host's reboots |
| `ScaleDown`, `ScaleUp` | the evaluation of one Machine and the watch filter; the choice of the Machine to wake |
| `Clusters`, `PoolGuards`, `Cooldowns`, `NodeCaps`, `ScalePasses`, `EmptyTimer` | pool policies over all runs of many Machines |

Four promises hold only under a condition, and the model shows both sides. An operator's cordon is
safe from ONP only if no pass is between its read of the Node and its patch when the cordon is placed
(`OperatorCordonStandsExactly`, `CordonClaimed`). The label prediction of
the fit simulation fails for an empty label value and for the reserved key (`LabelsFaithful`,
`LabelsCounterexamples`). A ShuttingDown Machine looked at in the very second of its deadline is
neither failed nor requeued, because the deadline test is strict while the requeue time is then zero
(`StayingPassComesBack`, `ShutdownDeadlineGap`). An agent that cannot read its boot time, or an
episode without an anchor, powers a host off again after every boot (`RepeatsWithoutAnchor`).

Where comment and code disagree, the model follows the code: the comment at
`internal/controller/scaledown_controller.go:301` says terminating pods do not count as workload, but
`isWorkload` counts them.

## Model

| member | source | states |
|---|---|---|
| `Api.Matching` | internal/controller/machine_controller.go:819-840 | the matched pools are exactly the listed pools whose selector takes the Machine; a malformed selector takes none |
| `Api.MatchedAsListed` | internal/controller/machine_controller.go:819-840 | a pool is matched exactly as often as it is listed |
| `Api.PolicyOf` | internal/controller/machine_controller.go:760-782 | no pool: 300 seconds and no force; one pool: its own budget and force; several: a least budget and no force |
| `Api.ForceMeans` | internal/controller/machine_controller.go:760-782 | force applies if and only if, among the listed pools, one alone selects the Machine and says so |
| `Api.ConservativeDrainTimeout` | internal/controller/machine_controller.go:787-795 | the loop returns a budget that some conflicting pool grants and that none undercuts |
| `Api.PolicyIgnoresOrder` | internal/controller/machine_controller.go:760-795 | several matching pools give the least budget and never force; no policy depends on the listing order |
| `Template.MergeTaintMeaning` | internal/controller/machine_controller.go:925-941 | a merge puts exactly the given taint at its (key, effect), leaves all others in place, and never creates the duplicate pair the API server rejects |
| `Template.MergeTaintInto` | internal/controller/machine_controller.go:929-941 | the scan computes that merge, and reports a change exactly when there is one |
| `Template.WriteLabels` | internal/controller/machine_controller.go:902-910 | in any map order, only keys that read differently are written, and a change is reported exactly when there is one |
| `Template.WriteTaints` | internal/controller/machine_controller.go:911-915 | the loop folds the merge over the template taints, and reports a change exactly when some merge made one |
| `Template.TemplateChange` | internal/controller/machine_controller.go:900-921 | from the Node as read: whether a patch is sent, and what it carries - exactly the labels that read differently, and the whole merged taint list if it differs |
| `Template.TemplateKeepsAlwaysOn` | internal/controller/guards.go:57-73 | whatever template and Machine ask for, the always-on label of the Node is not added, changed or removed |
| `Template.CollectLabels` | internal/controller/machine_controller.go:871-884 | the overlay of template and Machine labels with the reserved key gone, in any map order |
| `Template.PersistentTaints` | internal/controller/scaleup_controller.go:435-444 | the kept taints are exactly those without the node.kubernetes.io/ prefix |
| `Template.KeepPersistent` | internal/controller/scaleup_controller.go:435-444 | the filtering loop keeps exactly those, in order |
| `Template.BuildNode` | internal/controller/scaleup_controller.go:316-348 | the copying and merging loops build the synthetic Node the theorems below are about |
| `Template.SyntheticWithoutNode` | internal/controller/scaleup_controller.go:316-348 | a Machine without a Node is simulated with its hostname, the template's labels and its own over them, the template's taints, and schedulable |
| `Template.TemplateOfNoneOrSeveral` | internal/controller/machine_controller.go:858-885 | in no pool or in several, a Machine brings its own labels to the Node and nothing else |
| `Template.FindUntolerated` | internal/scheduler/fit.go:102-126 | a found taint is a NoSchedule or NoExecute one the pod does not tolerate; none found means all are tolerated |
| `Template.VolumesAccept` | internal/scheduler/fit.go:145-155 | true exactly when every volume accepts the node |
| `Template.CheckShape` | internal/scheduler/fit.go:62-111 | the early returns answer yes exactly when the cordon, the affinity, every hard taint and every volume do |
| `Template.LabelsFaithful` | internal/controller/scaleup_controller.go:316-348 | simulated labels equal the woken Node's labels if and only if a check on pool, Machine and Node holds: hostname label present, reserved key not overlaid to another value, empty values already on the Node |
| `Template.LabelsCounterexamples` | internal/controller/machine_controller.go:880-909 | an overlaid empty value and an overlaid reserved key each make the prediction wrong |
| `Template.TaintsFaithful` | internal/controller/scaleup_controller.go:316-348 | simulated taints equal the woken Node's non-lifecycle taints if and only if the template has no lifecycle taint |
| `Template.SimulationFaithful` | internal/controller/scaleup_controller.go:306-348 | under those two conditions labels, taints and cordon agree and every non-resource predicate answers the same, for any affinity, toleration and volume functions |
| `WakeFidelity.PromotionDelivers` | internal/controller/machine_controller.go:312-366 | a whole pass over an Off or Booting Machine whose Node is up ends with the Machine Ready and on the Node exactly what the matching pools - none, one or several - ask for, uncordoned if the cordon was ONP's |
| `WakeFidelity.WakeKeepsThePromise` | internal/controller/machine_controller.go:312-338 | so a pod fits the Node after the wake exactly when it fitted the synthetic Node before it, resources and lifecycle taints aside |
| `ShutdownAgent.ShutdownReconciler.Reconcile` | internal/shutdownagent/reconciler.go:80-170 | the command runs if and only if the Machine read has this host's node name, is ShuttingDown, leaves the power-off to the agent, is in an episode not yet issued, and the host has not booted since; the episode is remembered only if skipped or powered off with success |
| `ShutdownAgent.HaltsOnlyItsOwnHost` | internal/shutdownagent/reconciler.go:88-110 | over any sequence of observations, whatever Machines the agent is shown, every power-off that took effect goes back to a ShuttingDown Machine of this very host |
| `ShutdownAgent.AtMostOnePowerOff` | internal/shutdownagent/reconciler.go:80-170 | over any sequence of observations, agent restarts and boots, no episode takes the host down twice |
| `ShutdownAgent.PowersOffExactlyWhenDue` | internal/shutdownagent/reconciler.go:80-170 | on a running host the agent powers off if and only if the host has not booted since the episode opened: failures are retried, later episodes are never skipped |
| `ShutdownAgent.RepeatsWithoutAnchor` | internal/shutdownagent/reconciler.go:148-170 | without an anchor, or with an unreadable boot time, the same episode takes the host down again after a boot |
| `HostPower.NoEpisodeHaltsTwice` | internal/shutdownagent/reconciler.go:80-170 | controller and agent together: in every run of the lifecycle, whatever old versions the agent reads, no episode takes the host down twice, given a readable boot time and a host that comes up later than it went down; the anchors the agent relies on are those the controller wrote |
| `HostPower.PowersOffExactlyWhenDueInRun` | internal/shutdownagent/reconciler.go:80-170 | wherever such a run has come to, on a running host the agent powers off for a ShuttingDown version it reads if and only if the host has not booted since that episode opened |
| `HostPower.RedeliveryIsNoOp` | internal/shutdownagent/reconciler.go:63-116 | in every run until the agent process ends, an episode it has powered off for brings no second power-off command, however often and in whatever version it is delivered again |
| `Lifecycle.Evictable` | internal/controller/machine_controller.go:627-645 | exactly the pods that keep the node on and are drainable are put up for eviction |
| `Lifecycle.ApplyCoherent` | internal/controller/machine_controller.go:154-722 | in every run the pass in flight agrees with the stored state, its program counter belongs to that state, and a version it still holds is the stored object |
| `Lifecycle.HappenFrame` | internal/controller/machine_controller.go:212-722 | each outside event changes its own object only: nothing but the pass in flight moves the state or one of its boot, drain, shutdown and loss anchors, and history only grows |
| `Lifecycle.CallKeepsReadings` | internal/controller/machine_controller.go:858-1071 | no call of the controller changes the Node's readiness, its always-on label or its existence |
| `Lifecycle.DriveIsRun` | internal/controller/machine_controller.go:154-195 | a pass left to itself, with any call outcomes and a crash anywhere, is a run of controller events, so every theorem on runs covers it |
| `PassOutcome.PassComesToTheTable` | internal/controller/machine_controller.go:154-722 | a whole pass left to itself, all of whose calls succeed, ends exactly as a table over the fields of Machine, Node, pods, pools and clock says: the Machine with state, anchors, conditions and triggers, the Node, the requeue, and the log of everything done, evictions included |
| `PassOutcome.FailedCallChangesNothing` | internal/controller/machine_controller.go:212-722 | any failed call whose failure is not itself a branch ends the pass on the error backoff with nothing changed |
| `PassOutcome.PowerOnRefused` | internal/controller/machine_controller.go:250-263 | a refused power-on leaves the Machine Off with its condition false, to be tried again |
| `PassOutcome.TemplateRefused` | internal/controller/machine_controller.go:324-334 | a rejected template leads to Failed; any other error only past the boot budget, and is tried again before that |
| `PassOutcome.EvictionRefused` | internal/controller/machine_controller.go:634-645 | an eviction a disruption budget blocks is skipped, any other refusal ends the pass |
| `PassOutcome.EvictionAccepted` | internal/controller/machine_controller.go:634-645 | an accepted eviction leaves that pod terminating and every other pod alone, and the loop goes on with the rest |
| `PassOutcome.DuplicateIsHeld` | internal/controller/machine_controller.go:164-177 | a Machine whose Node another one claims is held: nothing changes and it is looked at again in a minute |
| `PowerOffSafety.EveryPowerOffIsSafe` | internal/controller/machine_controller.go:532-625 | in every run each power-off is preceded by the opening of its episode out of Draining, by a pass that read the Node and found it not always-on, read it again and found it cordoned or gone, and got an uncached pod list that keeps nothing on; a reading not made is not evidence |
| `PowerOffSafety.EvidenceWasRead` | internal/controller/machine_controller.go:542-625 | the three readings an episode is opened on are what the cluster showed at three moments of the run, in that order: always-on check, cordon check, uncached list |
| `OneShotTriggers.TriggersAreConserved` | internal/controller/machine_controller.go:212-218 | in every run, crashes included, Off to Booting happens at most once per wake-now request and Ready to Draining at most once per drain-now request |
| `NoFlapping.AtMostFiveChanges` | internal/controller/machine_controller.go:154-722 | while readiness and the always-on label stand still, the state changes at most five times, whatever else happens |
| `NoFlapping.ChangesWithinRank` | internal/controller/machine_controller.go:154-722 | every state change strictly lowers a rank of (readiness, always-on, state) that nothing raises |
| `AlwaysOnNodes.AlwaysOnStaysUp` | internal/controller/machine_controller.go:466-476 | while the label stays on: no eviction, no cordon, no new drain, no ShuttingDown, whatever templates apply; and no power-off unless an old ShuttingDown version can still be read |
| `CordonOwnership.OperatorCordonStands` | internal/controller/machine_controller.go:987-1071 | from any moment at which no pass is between a read of the Node and the patch decided on it, an unmarked cordon that operators keep on is neither lifted nor claimed in any run |
| `CordonOwnership.OperatorCordonStandsExactly` | internal/controller/machine_controller.go:987-1071 | that condition is exact: the cordon stands in all runs if and only if no such patch is pending when it is placed |
| `CordonOwnership.OperatorCordonStandsAtRest` | internal/controller/machine_controller.go:987-1071 | what an operator can check: placed while the Machine is in any state but Off, Booting and Draining, the cordon stands in every run that keeps it on |
| `CordonOwnership.CordonClaimed` | internal/controller/machine_controller.go:998-1015 | the race: a cordon placed on an unmarked Node between the read and the patch of setCordon gets ONP's marker |
| `CordonOwnership.ReadyNodeUnmarked` | internal/controller/machine_controller.go:312-319 | without hand edits of the marker, a Ready Machine's Node never carries it |
| `ProtectedPods.ProtectedPodSurvives` | internal/controller/machine_controller.go:549-648 | an unfinished do-not-disrupt pod that stays bound is never evicted and its Machine never moves to ShuttingDown, unless one listed pool alone selects the Machine and forces; for DaemonSet and static pods even then |
| `ProtectedPods.ProtectedDrainEnds` | internal/controller/machine_controller.go:549-577 | from any cell such a run comes to (`Alive`, which `ProtectedPodSurvives` gives), an error-free pass over Draining past its deadline ends within eleven calls with the Machine Failed or Ready and the pod untouched, unless someone edited the Machine or deleted the Node under the pass |
| `Deadlines.AnchorsAlwaysSet` | internal/controller/machine_controller.go:266-268 | in every run Booting and Draining carry their anchor and ShutdownStartTime is set exactly in ShuttingDown |
| `AnchorTimes.AnchorIsTheEntry` | internal/controller/machine_controller.go:266-268 | in every run the anchor of a Booting, Draining or ShuttingDown Machine is the time at which it went there, from Off, Ready or Draining, and it has stayed there since |
| `AnchorTimes.FailsOnlyPastTheBudget` | internal/controller/machine_controller.go:727-752 | in every run Draining turns Failed only if at some moment more than the pools' budget had passed since it began, ShuttingDown only past its budget, Booting only past its budget or after a rejected template |
| `Deadlines.PassPastDeadlineLeaves` | internal/controller/machine_controller.go:694-752 | a pass past the deadline all of whose calls succeed, whatever happens between them, ends within eleven calls, and then the Machine has left the state; the one exception is a pass under which someone edited the Machine or deleted the Node and which ended on the error backoff, so an unraced pass always leaves |
| `Deadlines.PassPastDeadlineTarget` | internal/controller/machine_controller.go:282-304 | if the Node reads the same throughout, it goes to the state that reading calls for: Ready, Off or Failed, with the same one exception |
| `Deadlines.StayingPassComesBack` | internal/controller/machine_controller.go:1189-1219 | a pass that stays in a transient state comes back, by the deadline in Booting and ShuttingDown, if and only if it is not a ShuttingDown pass in the very second of its deadline |
| `Deadlines.ShutdownDeadlineGap` | internal/controller/machine_controller.go:747-752 | the exception occurs: such a pass changes nothing and asks for no requeue |
| `MachinePass.OtherMachinesOnNode` | internal/controller/guards.go:40-55 | the names found are exactly those of the other Machines claiming the same Node; none for a Machine without a node name |
| `MachinePass.MachineReconciler.UpdateStatus` | internal/controller/machine_controller.go:269-271 | the version-checked whole-status write: refused without effect, or stored as the next version |
| `MachinePass.MachineReconciler.RemoveDrainAnnotation` | internal/controller/machine_controller.go:1243-1253 | performs the step that drops drain-now, and hands back the server's answer |
| `MachinePass.MachineReconciler.RemoveWakeAnnotation` | internal/controller/machine_controller.go:1223-1233 | performs the step that drops wake-now |
| `MachinePass.MachineReconciler.PatchNotReadySince` | internal/controller/machine_controller.go:1265-1289 | a patch of the loss anchor alone |
| `MachinePass.MachineReconciler.Save` | internal/controller/machine_controller.go:345-350 | performs the step of a save point with the locally edited copy |
| `MachinePass.MachineReconciler.Initialize` | internal/controller/machine_controller.go:199-207 | is the run of steps from the unset state |
| `MachinePass.MachineReconciler.ReconcileOff` | internal/controller/machine_controller.go:212-220 | is the run of steps of an Off pass, whatever each call returns and wherever it crashes |
| `MachinePass.MachineReconciler.AdoptOrWake` | internal/controller/machine_controller.go:222-248 | the adoption of a running Node, or the provider checks of a wake |
| `MachinePass.MachineReconciler.PowerOn` | internal/controller/machine_controller.go:250-277 | only an accepted power-on goes to the Booting save, a refused one to the condition alone |
| `MachinePass.MachineReconciler.ReconcileBooting` | internal/controller/machine_controller.go:282-304 | is the run of steps of a Booting pass |
| `MachinePass.MachineReconciler.AwaitNode` | internal/controller/machine_controller.go:289-304 | promote, fail on timeout, or resend and poll |
| `MachinePass.MachineReconciler.ResendPowerOn` | internal/controller/machine_controller.go:395-411 | at most one repeated power-on, never an error |
| `MachinePass.MachineReconciler.PromoteToReady` | internal/controller/machine_controller.go:312-366 | uncordon, template, Ready, trigger, in that order |
| `MachinePass.MachineReconciler.UncordonIfONPCordoned` | internal/controller/machine_controller.go:1053-1071 | is the run of its steps: a first read that looks for the marker, then setCordon(false) |
| `MachinePass.MachineReconciler.SetCordonFalse` | internal/controller/machine_controller.go:987-1028 | a second read decides what the patch carries |
| `MachinePass.MachineReconciler.SendUncordon` | internal/controller/machine_controller.go:1018-1028 | the patch sends only the fields that differed; on a Node gone by then it fails |
| `MachinePass.MachineReconciler.ApplyNodeTemplate` | internal/controller/machine_controller.go:858-892 | lists the pools and stops there when nothing is desired |
| `MachinePass.MachineReconciler.StampTemplate` | internal/controller/machine_controller.go:893-918 | reads the Node and works out the patch; none is sent when nothing changes or the Node is gone |
| `MachinePass.MachineReconciler.SendTemplate` | internal/controller/machine_controller.go:919-923 | sends the patch over whatever the Node is by then |
| `MachinePass.MachineReconciler.FailTemplate` | internal/controller/machine_controller.go:324-334 | a rejected template fails the Machine, another error only past the boot budget |
| `MachinePass.MachineReconciler.CheckDrift` | internal/controller/machine_controller.go:335-341 | one more read of the Node unless no capacity is declared; failing, it ends the pass before the Ready save |
| `MachinePass.MachineReconciler.EnterService` | internal/controller/machine_controller.go:345-365 | saves Ready, then clears the wake trigger |
| `MachinePass.MachineReconciler.FailBoot` | internal/controller/machine_controller.go:370-383 | saves Failed, then clears the wake trigger |
| `MachinePass.MachineReconciler.ReconcileReady` | internal/controller/machine_controller.go:417-432 | is the run of steps of a Ready pass |
| `MachinePass.MachineReconciler.WatchNode` | internal/controller/machine_controller.go:434-456 | the read of the Node, and node loss or tidying |
| `MachinePass.MachineReconciler.ReconcileReadyNodeLost` | internal/controller/machine_controller.go:499-524 | stamps the loss, waits out the grace, or gives the Node up |
| `MachinePass.MachineReconciler.TidyNode` | internal/controller/machine_controller.go:440-455 | reads the Node for a stale marker, then turns to the loss anchor |
| `MachinePass.MachineReconciler.DropMarker` | internal/controller/machine_controller.go:1032-1046 | drops a marker read on a schedulable Node |
| `MachinePass.MachineReconciler.StartDraining` | internal/controller/machine_controller.go:466-492 | refuses an always-on Node and drops the trigger, else saves Draining first |
| `MachinePass.MachineReconciler.ReconcileDraining` | internal/controller/machine_controller.go:532-648 | is the run of steps of a Draining pass |
| `MachinePass.MachineReconciler.CheckAlwaysOn` | internal/controller/machine_controller.go:542-548 | an always-on Node aborts the drain before any pod is touched |
| `MachinePass.MachineReconciler.ResolvePolicy` | internal/controller/machine_controller.go:760-782 | computes the policy of the matching pools |
| `MachinePass.MachineReconciler.CheckBudget` | internal/controller/machine_controller.go:549-577 | the timeout is judged before the cordon |
| `MachinePass.MachineReconciler.CordonFirst` | internal/controller/machine_controller.go:578-588 | a Node read as cordoned or gone leads to the pod list, any other to the cordon patch |
| `MachinePass.MachineReconciler.PlaceCordon` | internal/controller/machine_controller.go:998-1015 | the patch carries the marker only if the Node was read without it; a cordon just placed ends the pass with a poll |
| `MachinePass.MachineReconciler.EmptyOrEvict` | internal/controller/machine_controller.go:595-602 | an empty cached list leads to the uncached one, any other to evictions |
| `MachinePass.MachineReconciler.ConfirmEmpty` | internal/controller/machine_controller.go:602-625 | only an empty uncached list leads to ShuttingDown |
| `MachinePass.MachineReconciler.EnterShuttingDown` | internal/controller/machine_controller.go:614-625 | opens the episode with its anchor |
| `MachinePass.MachineReconciler.EvictAll` | internal/controller/machine_controller.go:627-648 | the loop is the run of eviction steps over the drainable pods |
| `MachinePass.MachineReconciler.Evict` | internal/controller/machine_controller.go:1111-1130 | performs one eviction step |
| `MachinePass.MachineReconciler.AbortDrain` | internal/controller/machine_controller.go:654-669 | lifts ONP's cordon, then saves Ready without the drain anchor |
| `MachinePass.MachineReconciler.FailDrain` | internal/controller/machine_controller.go:557-576 | lifts ONP's cordon, then saves Failed |
| `MachinePass.MachineReconciler.ReconcileShuttingDown` | internal/controller/machine_controller.go:678-722 | is the run of steps of a ShuttingDown pass |
| `MachinePass.MachineReconciler.Reconcile` | internal/controller/machine_controller.go:154-195 | the whole pass is the run of steps from the stored state, or only a recheck when another Machine claims the Node |
| `Resources.AddRequests` | internal/controller/scaleup_controller.go:396-414 | sums resource by resource in any map order |
| `Resources.BoundRequests` | internal/controller/scaleup_controller.go:396-414 | the total per resource over the live bound pods |
| `Resources.SyntheticAllocatable` | internal/controller/scaleup_controller.go:359-384 | base capacity less bound requests, never negative, in any map order |
| `Resources.FitsResources` | internal/scheduler/fit.go:130-138 | true exactly when every request fits, an unadvertised resource counting as zero |
| `Resources.NoOvercommit` | internal/controller/scaleup_controller.go:359-414 | a pod that passes leaves, for every resource it asks a positive amount of, request plus all bound requests within what is declared and, unless the resource is a declared extended one, within what the Node reports; with no negative quantities the check passes exactly then |
| `Resources.BoundSumOneMore` | internal/controller/scaleup_controller.go:396-414 | one more pod adds its request to the bound sum unless it is finished or being deleted |
| `ScaleUp.SmallerIsStrict` | internal/controller/scaleup_controller.go:449-461 | (cpu, memory, name) is a strict order that leaves no two names level |
| `ScaleUp.SmallerTransitive` | internal/controller/scaleup_controller.go:449-461 | and transitive |
| `ScaleUp.BeforeIsSmaller` | internal/controller/scaleup_controller.go:449-461 | it is less CPU, then less memory, then the name that sorts first, an undeclared capacity counting as zero |
| `ScaleUp.SortsByFirstDifference` | internal/controller/scaleup_controller.go:449-461 | names sort by their first difference, a prefix first |
| `ScaleUp.SimulateFit` | internal/controller/scaleup_controller.go:169-180 | the simulation answers yes if and only if, on the synthetic Node of Machine, pool and real Node, an operator's cordon and every hard taint are tolerated, affinity and every volume accept its labels, and every request fits the room left |
| `ScaleUp.UntoleratedTaintBars` | internal/scheduler/fit.go:102-111 | a hard template taint the pod does not tolerate rules the Machine out, with or without a Node |
| `ScaleUp.PoolAtCap` | internal/controller/scaleup_controller.go:526-555 | true exactly when as many different members take a slot as maxNodes allows |
| `ScaleUp.PoolMemberships` | internal/controller/scaleup_controller.go:505-521 | the count of each name is the number of pools listing it |
| `ScaleUp.SharedByCount` | internal/controller/scaleup_controller.go:190-195 | a count above one means two different pools list the Machine |
| `ScaleUp.JudgeMember` | internal/controller/scaleup_controller.go:169-207 | one member adds exactly its verdict to the loop's accumulators |
| `ScaleUp.JudgeMembers` | internal/controller/scaleup_controller.go:157-208 | after a pool, the accumulators summarise all verdicts so far |
| `ScaleUp.Smallest` | internal/controller/scaleup_controller.go:449-461 | the winner is a candidate smaller than every other |
| `ScaleUp.Decide` | internal/controller/scaleup_controller.go:210-268 | the action that follows from the summary: wait, wake, cool down, warn, nothing |
| `ScaleUp.Select` | internal/controller/scaleup_controller.go:132-268 | the whole selection takes the action the set of verdicts calls for |
| `ScaleUp.VerdictMeans` | internal/controller/scaleup_controller.go:169-207 | each verdict on a member in plain fields, both directions |
| `ScaleUp.ActionMeans` | internal/controller/scaleup_controller.go:210-268 | the selection waits if and only if a fitting wake is under way (booting, asked without a refused power-on, or Ready for under two minutes), wakes if and only if it need not wait and a fitting member is wakeable, otherwise waits out the earliest cooldown, warns, or finds nothing; and the requeue of each |
| `ScaleUp.ActionUnique` | internal/controller/scaleup_controller.go:210-268 | the verdicts leave one action, up to the pool a warning names |
| `ScaleUp.SelectionIgnoresOrder` | internal/controller/scaleup_controller.go:132-268 | reordering the pools and each pool's Machines in any way gives the same Machine or the same wait |
| `ScaleUp.WakeIsBest` | internal/controller/scaleup_controller.go:132-230 | the woken Machine is Off, unasked, fitting, in one pool that is uncapped and uncooled; no fitting wake is under way; every other such Machine has more CPU, or as much and more memory, or as much of both and a later name |
| `EmptyTimer.DrainOnlyAfterIdleWindow` | internal/controller/scaledown_controller.go:112-214 | in every run of the cluster the pool guards are reached only if consolidateAfter has passed since a stamp after which every completed evaluation saw a Ready, unprotected, single-pool, enabled, empty Machine, and a decision to drain the Machine is under way only after that |
| `EmptyTimer.PassIsTimedRun` | internal/controller/scaledown_controller.go:112-284 | every pass of the scale-down reconciler is such a run, so the theorem covers it |
| `ScaleDown.DroppedEventsKeepEmptiness` | internal/controller/scaledown_controller.go:567-597 | a dropped pod event changes no node's emptiness, and creates and updates pass exactly when the pod begins or stops occupying a node |
| `Clusters.PoolScaleDownCounts` | internal/controller/scaledown_controller.go:430-454 | counts the members kept on and the members scaling down, each on one side at most |
| `PoolGuards.GuardsHold` | internal/controller/scaledown_controller.go:220-284 | over all interleavings and failed writes, without manual drains and node loss, the kept-on count stays at or above min(start, minNodes) and the scaling-down count at or below max(start, maxConcurrent) |
| `Cooldowns.ScaleDownsAreSpaced` | internal/controller/scaledown_controller.go:237-280 | with a scale-down cooldown set: the k-th later stamp of a pool comes at least k cooldowns after the first, and any window of L seconds holds at most L / cooldown + 1, also when the patch after the stamp fails |
| `Cooldowns.WakesAreSpaced` | internal/controller/scaleup_controller.go:218-230 | the same for wakes with a scale-up cooldown set |
| `NodeCaps.WhatTakesASlot` | internal/controller/machine_controller.go:199-383 | a call gives a Machine a slot it did not have if and only if it initialises one already asked to wake or adopts a running Node from Off |
| `NodeCaps.GainsExactly` | internal/controller/scaleup_controller.go:547-573 | of all events at a Machine exactly these give it a slot it did not have: a wake by hand, a Failed Machine's Node coming back, and those calls |
| `NodeCaps.WakeRaisesOnePool` | internal/controller/scaleup_controller.go:218-230 | a wake request raises the count of its own pool by at most one and of no other pool |
| `NodeCaps.MaxNodesHolds` | internal/controller/scaleup_controller.go:157-207 | in every run, over all interleavings, a pool takes at most max(start, maxNodes) slots plus one for each time a member got one from outside, as `GainsExactly` lists; so automatic wakes alone never take it over |
| `ScalePasses.CountsAgree` | internal/controller/scaledown_controller.go:397-442 | counting the listed Machines is counting the pool's members |
| `ScalePasses.SelectedMayWake` | internal/controller/scaleup_controller.go:157-230 | a Machine the selection wakes is one its pool may wake: slot free, no cooldown, in that pool alone |
| `ScalePasses.ScaleDownReconciler.Reconcile` | internal/controller/scaledown_controller.go:112-214 | the pass is exactly its run of cluster steps: an anchor patch, or a decision carried as far as its writes go |
| `ScaleDown.OneVerdict` | internal/controller/scaledown_controller.go:112-214 | every sight has exactly one verdict with the stated meaning, and the evaluation gives it |
| `ScalePasses.ScaleDownReconciler.Evaluate` | internal/controller/scaledown_controller.go:120-214 | a pending drain is ignored; the timer is cleared exactly when the Machine is not Ready, unprotected, single-pool, enabled and empty; an idle one is stamped if unanchored, held exactly until its window ends, and triggered under its one pool after that |
| `ScalePasses.ScaleDownReconciler.PatchEmptySince` | internal/controller/scaledown_controller.go:334-358 | a patch of the empty anchor alone |
| `ScalePasses.ScaleDownReconciler.GuardsPass` | internal/controller/scaledown_controller.go:220-272 | true exactly when the Machine may be scaled down under cooldown, minNodes and maxConcurrent |
| `ScalePasses.ScaleDownReconciler.TriggerScaleDown` | internal/controller/scaledown_controller.go:220-284 | the guards, the stamp and the request are the three steps of a decision, in that order |
| `ScalePasses.ScaleUpReconciler.Reconcile` | internal/controller/scaleup_controller.go:94-268 | the action is the one the verdicts call for, and the pass is the run of its cluster steps |
| `ScalePasses.ScaleUpReconciler.RequestWake` | internal/controller/scaleup_controller.go:218-230 | the stamp goes before the wake request, also when the request fails |

## Left out

- Events, logging, Prometheus metrics, `announceHold`, the `capacityDrift` text and the DrainSucceeded condition: reporting only.
- HTTP, UDP, Wake-on-LAN packets, `systemctl` and process start-up: a power-on is an accept-or-fail call, a power-off a logged effect.
- Kubernetes library internals: required node affinity, volume affinity and toleration are arbitrary functions, a label selector is the set of Machine names it takes, pod requests are given per pod.
- `NodePoolReconciler`, the watch mappings, charts, CRDs and generated code: only easy members.
- Sub-second times: anchors are stored in whole seconds and all clocks count seconds. `int32` counts are unbounded integers.
- The name sort in `matchingPools`: policies are proved independent of the order instead.
- The in-place sort in `smallestCandidate`: the model scans for the minimum and does not capture the reordered slice.
- Stale reads of the machine controller's own Machine: a pass begins by reading the stored version and making the duplicate check at one instant, and later writes show up as version conflicts. Its reads of Nodes and pools are fresh. The pod cache, the agent's Machine cache and everything between two calls are arbitrary.
- Stale cached Machines and Nodes in the first half of a scale pass: one pass of a scale controller reads the cluster at one instant, and only its writes are spread out. Its pod list is arbitrary.
- Creation and deletion of Machines and pools, and edits of selectors or policies, in the cluster runs.
- Two Machines on one Node beyond the hold that stops both.
- Node loss as "NotReady for the whole grace window": the loss anchor survives a drain and a promotion, so only the code's own timing is modelled.
- Which pods count as scale-up candidates and the resolution of a pod's volumes to node affinities: the pod and its affinities are inputs.
- AlwaysOnNodes.AlwaysOnStaysUp: does not exclude a power-off by an agent that still reads a ShuttingDown version from before the label was set.
