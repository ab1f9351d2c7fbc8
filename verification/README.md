# Verified model of the NVMesh operator

The NVMesh operator drives a Kubernetes cluster through repeated reconcile cycles. A cycle can stop at any request, its
last write may or may not have taken effect, and everybody else keeps changing the cluster meanwhile. This project models
the cycle, from the first read of the custom resource to the last status write, and proves what holds anyway.

## How the model is built

One machine underlies everything but the two text and list modules. `Kube.dfy` holds the cluster (`World`: the stored
custom resource with spec, status, finalizers, deletion mark and resource version; objects, pods, jobs, nodes, volumes,
the settings document) and what the API server does with each request (`Effect`, `Answer`). `Client.Update` stores spec and
finalizers only, `Status().Update` the status only, both refresh the caller's copy and both fail with a conflict on a
stale version. A cycle is played against a script of ticks. Each tick says which moves others make before the next request
and how the request ends: answered; an error although it may have landed; or the operator dies waiting, again with or
without effect. Scripts are arbitrary, so a lemma about every script is a lemma about every interleaving and every crash.
Every request is noted in a log together with its reply, which is the history the ordering properties speak about.

Each source file is a module of two halves. The methods on class `Operator` follow the Go code step by step, loops and
field updates included. Each is proved equal to a function on the system state; the properties are lemmas about these
functions.

| files | content |
|---|---|
| `Strings`, `NvmeshConf`, `CoreConfigMap` | split and join, sorting, the nvmesh.conf parser, printer and merge, the core ConfigMap |
| `Conditions` | the condition list and its history |
| `Kube`, `OperatorState` | the cluster, its other actors, requests, the running operator |
| `Objects`, `Jobs`, `Tasks`, `StatusUpdater`, `Management`, `Uninstall`, `Finalizer`, `CollectLogs`, `Reconciler` | the operator's code |
| `Safety`, `StageSafety`, `Protocol`, `CycleSafety`, `Runs` | the invariant and what it gives over all runs |
| `Gate`, `Termination`, `Calm` | the volume gate and the finalizer; the uninstall ends |
| `Bootstrap` | bringing up management |
| `Components`, `Convergence`, `Deployment`, `Concurrency` | how the components fill in and compare objects; directories of objects and when their success means what it says; the two retry loops |
| `NodeJobs`, `Accounting`, `Collecting` | jobs on nodes: uninstall coverage, the account of the collect-logs jobs over visits and over whole runs |
| `ActionPass` | what a pass over the pending actions takes off the list; an error that is dropped |
| `CycleEffects`, `LiveCycle`, `DeployedContent` | what a cycle over a live resource brings about; what each component puts into its objects |
| `StageEffects`, `ActionEffects`, `Reporting` | what each stage, action and report has done, request by request, and what it comes to |
| `Shipment` | the shipped objects satisfy what the other modules assume of the directories |

`hide` statements keep definitions out of a proof that does not need them; they have no effect on what is stated.

## Model

| member | source | states |
|---|---|---|
| Runs.CrashSafety | pkg/controllers/uninstall.go:43-112 | In every state reached by any cycles, cut short anywhere: while the finalizer holds the resource the finished stages are a prefix (at most the next one is started, completion means all eight), and what they stand for is true: no workload object after stage 1, no labelled workload pod after stage 2, clear-DB job asked for after 3 and seen settled after 4, no mongo object after 5. |
| Runs.StageOrder | pkg/controllers/uninstall.go:50-73 | On every run, replays included: an uninstalling operator asks for the clear-DB job only after a listing without workload pods, removes a mongo object only after a look at that job that did not find it busy, and never asks for a component object or the init-DB job. |
| Runs.ProgressNeverShrinks | pkg/controllers/nvmesh_actions.go:86-112 | A stage once recorded as finished stays so, across any cycles, as long as the finalizer is held. |
| Runs.NoResurrection | pkg/controllers/nvmesh_controller.go:106-117 | A cycle that reads a resource being deleted, with our finalizer and without SkipUninstall, stores no core, CSI, management or mongo object, however it ends, and nobody else's move brings one back. |
| Gate.VolumesFirst | pkg/controllers/finalizer.go:67-140 | On every run: such a cycle (SkipUninstall or not) deletes, updates or starts nothing and keeps the finalizer unless both listings, made in that cycle and in order, were free of attached or provisioned NVMesh volumes or the override the code reads was set. |
| Gate.FinalizerGoesLast | pkg/controllers/finalizer.go:74-110 | On every run, without SkipUninstall: the first write of the resource itself in such a cycle drops the finalizer and carries all eight stages finished. |
| Gate.GateExactly | pkg/controllers/finalizer.go:113-196 | The gate opens if and only if both listings, the volumes after the attachments, were answered, no listed attachment lacks a volume name, and, the override aside, neither listing failed, shows an attached attachment of nvmesh-csi.excelero.com or a volume of that driver. |
| Reporting.DeletionProceeds | pkg/controllers/finalizer.go:67-111 | Behind an open gate: SkipUninstall skips the stages; an uninstall that fails ends there; one that waits writes its tasks once, not ready and uninstalling, whatever becomes of that write; one that is done writes the resource without the finalizer and reports what becomes of that. |
| Termination.UninstallEnds | pkg/controllers/uninstall.go:94-112 | From any reachable state, crashes and lost writes before it included: with no failing request or node job from then on, a fixed set of nodes and no volume in the way, in any schedule in which workload pods go and running jobs end, the finalizer is removed after finitely many rounds. Others move between the cycles, and between the requests of a cycle pods go, jobs end and time passes. |
| Termination.RoundGetsOn | pkg/controllers/uninstall.go:340-367 | The measure (unfinished stages, then what the stage waits for as a multiset) never rises in a round, and when nothing is pending the round finishes a stage or releases the resource. |
| Termination.GoodCycleGetsOn | pkg/controllers/nvmesh_controller.go:71-146 | A whole cycle without failures, with pods going and jobs ending meanwhile, ends the uninstall, reaches a later stage, or leaves nothing more pending than before, where something was, with every node's job posted if it is the node stage. |
| Safety.CallKeeps | pkg/controllers/uninstall.go:94-112 | One request, with any moves of others before it and whether or not it takes effect, keeps the invariant that ties recorded progress to the cluster. |
| StageSafety.RunStageIsQuiet | pkg/controllers/uninstall.go:43-92 | Every stage, run after its predecessors, keeps the invariant, brings nothing back, and if it reports success its effect holds. |
| Protocol.StageTurnAdvances | pkg/controllers/uninstall.go:94-112 | One turn of the stage loop keeps the invariant, never loses progress, and ends in success, an error or a request to be run again; success means stages 1..k are finished. |
| Protocol.TakeDownAdvances | pkg/controllers/uninstall.go:31-121 | The loop as a whole: success without SkipUninstall means all eight stages finished and all three components disabled in the copy. |
| Protocol.HandleFinalizerKeeps | pkg/controllers/finalizer.go:45-111 | Handling the finalizer keeps the invariant; falling through after an uninstall happens only with all three Disabled flags set, which survive the update, and with leave to deploy. |
| LiveCycle.FinalizerIsTaken | pkg/controllers/finalizer.go:45-65 | A live resource without the finalizer: exactly one write, the finalizers read and this one behind them, and the cycle goes on iff that write is answered. A live one with it, and a deleted one without it: no request. |
| StageEffects.TurnDoes | pkg/controllers/uninstall.go:43-112 | A turn of a stage not recorded as finished succeeds only when the stage has done what its name says (objects of the three components gone; an empty listing of workload pods; clear-DB job created; that job and its pods gone; mongo objects gone; every labelled node's job seen done and gone; every marked claim gone or stuck; account, role and binding gone), and then records exactly that task as finished. A recorded one is passed over without a request. Nobody else writes objects meanwhile. |
| StageEffects.TurnStops | pkg/controllers/uninstall.go:94-108 | A stage that does not succeed leaves its task recorded as started; one that asks to be run again loses its error, another error is reported. |
| StageEffects.WorkloadsInTurn | pkg/controllers/uninstall.go:133-150 | Core, CSI, management in that order, ended by the first that fails. |
| StageEffects.CompletionIsRecorded | pkg/controllers/uninstall.go:113-121 | An uninstall that is done records the action as complete, switches the three components off in the copy, and changes nothing else of it. |
| StageEffects.DrainExactly | pkg/controllers/uninstall.go:171-193 | Done iff no workload pod is listed, another turn in a second if one is, a failed listing is the stage's error. |
| StageEffects.ClearDbExactly | pkg/controllers/uninstall.go:152-169 | Waits a second iff the job was seen running; a finished, failed, missing or unreadable job is deleted, and success means job and pods are gone. |
| StageEffects.MarkedClaimsGo | pkg/controllers/uninstall.go:408-433 | Touches no object but the claims of its one listing; each of them is gone in the end unless looking it up or deleting it failed, which is forgotten; a failed listing is the stage's error. |
| StageEffects.AccountGoes | pkg/controllers/uninstall.go:386-406 | Touches no object but account, role and binding; success means none of them is left, and anything else is an error with another turn in a second. |
| CycleSafety.HandleKeeps | pkg/controllers/nvmesh_controller.go:86-146 | The rest of a cycle keeps the invariant from every copy read in it, and creates or updates no component object while uninstalling. |
| CycleSafety.ActionsKeep | pkg/controllers/nvmesh_actions.go:35-112 | Dropping stale action statuses and running actions keeps the invariant: it can never touch recorded uninstall progress that the finalizer still protects. |
| CycleSafety.CollectWorks | pkg/controllers/collect_logs.go:37-143 | The collect-logs action changes nothing of the uninstall's progress and stores no component object. |
| LiveCycle.LiveCycleTakesEffect | pkg/controllers/nvmesh_controller.go:86-146 | A cycle over a live resource in which account, finalizer and components report neither an error nor a requeue, with nobody else writing objects and no stale management ConfigMap, ends with core, CSI and management each in place or with none of its objects left, by its own Disabled flag in the spec that was read, and mongo in place iff management is enabled and mongo is not external; whatever becomes of the actions. |
| CycleEffects.ComponentsTakeEffect | pkg/controllers/csi_controller.go:31-46 | The same for the components alone. |
| LiveCycle.ServiceAccountIsThere | pkg/controllers/ctrl_utils.go:577-602 | Whatever fails, at most account, role and binding are added and nothing is changed; no error means all three are there. |
| Reporting.ComponentsComeTo | pkg/controllers/nvmesh_controller.go:149-183 | Every component gets its turn unless the operator dies; a requeue of any is a requeue with no delay, and the error is management's, else core's, else CSI's. |
| Reporting.MongoComesFirst | pkg/controllers/mgmt_controller.go:52-94 | Mongo is deployed iff management is enabled and the database not external, and removed otherwise; trouble there ends management with another cycle in a second; a disabled management is removed, an enabled one waits for the database. |
| Reporting.ConvergenceIsReported | pkg/controllers/nvmesh_controller.go:117-146 | How a cycle ends behind the finalizer: the components' requeue with its error reported, or the actions and then a report of failure, of waiting, or of success without another cycle. |
| Reporting.TroubleIsReported | pkg/controllers/nvmesh_controller.go:86-116 | An invalid spec, trouble with the service account or with the finalizer is reported as not ready with its reason and retried at once; an uninstall that waits is reported with its delay. |
| Reporting.NothingToRead | pkg/controllers/nvmesh_controller.go:75-84 | A missing resource ends the cycle, an unreadable one is retried in a second, without a further request. |
| Bootstrap.SettingsBeforeManagement | pkg/controllers/mgmt_controller.go:52-94 | On every run, each cycle creates or writes a management object only after it found the settings document in that cycle, restarts aside, and asks for the init-DB job only after it found the document missing in that cycle. |
| Bootstrap.ManagementWaitsForSettings | pkg/controllers/mgmt_controller.go:52-161 | For one pass, with any failures: that order of requests; and if nobody else writes the settings meanwhile, a pass that succeeds or creates or writes a management object leaves both drive flags equal to the negated spec flags. |
| Bootstrap.DbIsHandled | pkg/controllers/mgmt_controller.go:96-161 | Looking at the database creates nothing; success means the document was found and holds what the spec wants; the missing-document error means it was reported missing. |
| Bootstrap.DatabaseDecides | pkg/controllers/mgmt_controller.go:66-94 | A missing document asks for the init job and another cycle in three seconds, an unreachable server for one in five without an error, any other error for one in a second. |
| Bootstrap.FoundSettingsDecide | pkg/controllers/mgmt_controller.go:125-161 | With the document found, the left-over init job is swept, whatever comes of it; the two negated flags are written, and management restarted, iff one of them differs. |
| Concurrency.UpdateStatusIsSafe | pkg/controllers/status_updater.go:88-117 | Against arbitrary concurrent writers: success means the resource is gone or its stored status is the caller's at entry; in every case spec, finalizers and deletion mark are what the others alone made them. |
| Concurrency.RestartIsSafe | pkg/controllers/ctrl_utils.go:620-642 | Against arbitrary concurrent writers: but for the restart annotation the object is what the others alone made it, so no update is lost; success means the annotation holds a time from within this call. |
| Concurrency.AnnotatingWrite | pkg/controllers/ctrl_utils.go:627-638 | The versioned write either misses or changes nothing but the annotation of the version that was read. |
| Reporting.StatusIsTriedFiveTimes | pkg/controllers/status_updater.go:88-117 | Entry by entry: a write of the status of entry, and only after a conflict a read and the same status over what was read, five writes at most; the last answer is the result, a missing resource being success. |
| Reporting.RestartTries | pkg/controllers/ctrl_utils.go:620-642 | Entry by entry: a read, a write of what was read with only the annotation set, bound to its version, and only after a conflict both again, within the given attempts; the last answer is the result. |
| Reporting.ConfigIsFollowedByRestart | pkg/controllers/mgmt_controller.go:493-508 | A stored management configuration is followed by attempts to restart its server, four at most; a failed write is not; neither failure is reported. |
| Reporting.TroubleAndSuccess | pkg/controllers/status_updater.go:20-85 | A report changes the Ready condition and nothing else, to false with the error as reason or to true without one, and gives the result asked for iff the status was stored or the resource is gone, else a retry in a second. |
| Convergence.RemoveDirectory | pkg/controllers/ctrl_utils.go:144-177 | Removing a directory: unlisted objects untouched whatever fails; no error means none of the listed objects is left. |
| Convergence.CreateDirectory | pkg/controllers/ctrl_utils.go:90-142 | Creating a directory of which nothing present is due for a write on the side: unlisted objects untouched whatever fails; no error means every listed object is there and none needs an update. |
| Deployment.PromiseKeptExactly | pkg/controllers/ctrl_utils.go:90-142 | "No error means everything is in place" holds under every script of failures and moves if and only if no listed object present is due for a write on the side, or the directory cannot succeed at all (an unreadable file, a refused manifest, an unknown kind). |
| Deployment.ManagementPromiseExactly | pkg/controllers/mgmt_controller.go:230-267 | For the management and mongo directories: if and only if the listed ConfigMap is not present with another configuration text, or the directory cannot succeed. |
| Deployment.StaleConfigReportedDone | pkg/controllers/mgmt_controller.go:474-504 | A concrete cluster where the promise fails: the ConfigMap is stored without the configuration the spec asks for. |
| Deployment.MgmtSettles | pkg/controllers/mgmt_controller.go:393-488 | Management is content with what it creates and with what it writes openly, and a write on the side is due exactly for its ConfigMap with another configuration text; the version is never compared. |
| Deployment.CoreDirectoryConverges | pkg/controllers/core_controller.go:50-113 | The core directory, its DaemonSets and ConfigMap and anything else listed: a pass without error leaves everything in place whatever was there, and a second pass asks for no write. |
| Deployment.CsiDirectoryConverges | pkg/controllers/csi_controller.go:50-98 | The same for the CSI directory. |
| Convergence.SecondTimeWritesNothing | pkg/controllers/ctrl_utils.go:90-142 | Once everything is in place, creating the directory again asks for no write at all. |
| Deployment.EveryObjectGetsItsTurn | pkg/controllers/ctrl_utils.go:213-220 | Creating or removing a file, whatever fails and whoever interferes: every object is looked up, or was refused by its component before, unless the operator dies in the file. |
| Convergence.ObjectsInTurn | pkg/controllers/ctrl_utils.go:213-226 | A file is its objects in turn: the rest runs whatever the front reported, and the first error is what the file reports. |
| Convergence.FilesInTurn | pkg/controllers/ctrl_utils.go:237-251 | A directory is its files in turn: a file that fails is the last one touched. |
| Reporting.EnsuringComesTo | pkg/controllers/ctrl_utils.go:90-142 | One object ensured: the requests and the result by what the lookup, the creation or the write answered; losing a creation race is success, every other error is reported. |
| Reporting.RemovalComesTo | pkg/controllers/ctrl_utils.go:144-177 | One object removed: missing is success, an unknown kind only for security constraints; of the deletion only an answer is, so an object gone since the lookup is an error. |
| Deployment.CoreSettles | pkg/controllers/core_controller.go:65-159 | Core is content with what it creates and with what it writes over anything it finds, for every manifest, and never writes on the side. |
| DeployedContent.CoreWritesExactly | pkg/controllers/core_controller.go:50-159 | Core is content iff, in its three DaemonSets, number, images and versions of the containers agree, and, in a ConfigMap, every field it fills in and every setting reads as expected; otherwise it writes what it deploys, the settings found kept under its own. |
| DeployedContent.CsiWritesExactly | pkg/controllers/csi_controller.go:48-220 | CSI refuses its two workloads iff the version is missing, is content iff image, controller replicas and node driver pull policy agree, and otherwise writes what it deploys, which is spelled out. |
| DeployedContent.MgmtWritesExactly | pkg/controllers/mgmt_controller.go:201-267 | Management refuses its server iff the version is missing, is content iff images, replicas, configuration text and set of addresses agree, and otherwise writes what it deploys, the ConfigMap on the side, the service with the cluster address it was given. |
| DeployedContent.MgmtFillsIn | pkg/controllers/mgmt_controller.go:277-391 | What management deploys, field by field: images, replicas, configuration, addresses, and the debugging variable. |
| DeployedContent.PreparedMeans | pkg/controllers/core_controller.go:189-232 | What core deploys, container by container: image by the last known name, pull policy, version variables, and the debugging variable. |
| DeployedContent.StoredExactly | pkg/controllers/ctrl_utils.go:90-142 | After success an object holds what its component fills in if it was missing, what the component writes if it wants a write, and else what it held. |
| Components.PreparedIsUpToDate | pkg/controllers/core_controller.go:86-113 | The containers core prepares agree with themselves in image and in every version variable. |
| Components.DaemonSet.InitDaemonSets | pkg/controllers/core_controller.go:189-221 | Every container gets image, pull policy and environment; one of an unknown name gets the image of the one before it. |
| Components.DaemonSet.ShouldUpdateDaemonSet | pkg/controllers/core_controller.go:86-113 | Asks for an update iff the number of containers differs, or some container's image, or some version variable found is of another version. |
| Components.SetEnvVariableValues | pkg/controllers/core_controller.go:223-232 | Sets the version variables and nothing else, and appends the debugging variable if asked to. |
| NodeJobs.EveryNodeIsUninstalled | pkg/controllers/uninstall.go:340-367 | Success means that the job of every node of the union of the two listings was seen completed without failure in this call, creation errors notwithstanding, and that all these jobs are gone. |
| StageEffects.EveryJobIsAskedFor | pkg/controllers/uninstall.go:195-206 | Whatever fails, the job of every node is asked for unless the operator dies. |
| StageEffects.JobsAreLookedAtInTurn | pkg/controllers/uninstall.go:282-294 | Waiting that does not succeed is waiting for some node's job with all jobs before it seen done. |
| StageEffects.FailedListingEnds | pkg/controllers/uninstall.go:252-276 | A failed listing ends the stage with its error, the clients' before the targets'. |
| NodeJobs.JobsClashExactly | pkg/controllers/nvmesh_actions.go:123-125 | Two nodes share an uninstall job, and a collect-logs job, exactly when their names agree but for dots against dashes. |
| NodeJobs.TwoNodesOneJob | pkg/controllers/uninstall.go:278-280 | Two different nodes that share one job. |
| Collecting.NoJobGoesUnfinished | pkg/controllers/nvmesh_actions.go:35-112 | On every run of whole cycles with a fixed set of labelled nodes, cut short anywhere, actions requested and withdrawn at any time: no job of the action is asked to go unless it was seen done since it was last asked for; a resource that records the deletion as finished has all stages in order and none of the jobs left. |
| Collecting.CollectingKept | pkg/controllers/collect_logs.go:37-143 | One pass of the action keeps both the tasks in hand and the tasks stored in order and true, and asks for removal only with all stages finished and none of the jobs left. |
| Collecting.ActionsKept | pkg/controllers/nvmesh_actions.go:35-59 | So does a pass over all pending actions, from every state the invariant of the runs allows: each write that drops the action is made with all stages finished and none of the jobs left. |
| ActionEffects.CollectDoes | pkg/controllers/collect_logs.go:37-143 | With any failures and any recorded tasks: removal is asked for only when each of the five stages was recorded as finished or did its part in this call, over the nodes of one client, one target and one management listing: collectors created, each node's job created, all seen done, all deleted with their pods; and then all five and the action are recorded as finished. |
| ActionEffects.CollectorsAreAwaited | pkg/controllers/collect_logs.go:87-125 | The collectors before the nodes: the first job that is not done decides, a running one asks for another turn in three seconds. |
| ActionEffects.FailedLogListingEnds | pkg/controllers/collect_logs.go:55-74 | A failed listing ends the action with its error, before any node is touched. |
| ActionEffects.StagesStop | pkg/controllers/collect_logs.go:37-143 | A stage that does not succeed leaves its task recorded as started and its result is the action's; a failed deletion asks for a retry in a second with its error. |
| ActionEffects.TurnExactly | pkg/controllers/nvmesh_actions.go:35-84 | An unknown action is an error; one that is done is taken off at its index in one write whose failure is forgotten, a panic without that index; one that waits has its status stored; one that failed has not. |
| ActionEffects.StaleGoExactly | pkg/controllers/nvmesh_actions.go:86-112 | No write iff every recorded action is asked for; otherwise the status without the others is stored and the cycle starts over, stored or not. |
| Accounting.NothingLeftBehind | pkg/controllers/collect_logs.go:37-143 | With a fixed set of nodes and any errors, deaths and lost status writes: removal is asked for only with every stage finished and none of the jobs left, and no job was deleted before it was seen done. |
| Accounting.VisitKeepsLedger | pkg/controllers/collect_logs.go:37-143 | One visit, however it ends, keeps the recorded tasks in order and true, both for the tasks it leaves and for those it started from. |
| Accounting.AccountBalancesExactly | pkg/controllers/collect_logs.go:87-166 | With a drifting set of nodes and any visits before, failing, dying or recorded in vain: what is left is what the last creating visit found and created, less the jobs of the nodes of the deleting visit; and the account from the first visit on balances if and only if no abandoned attempt left, or took away, the job of a node that neither of the two lists. |
| Accounting.RetriesOverTheSameNodesBalance | pkg/controllers/collect_logs.go:87-101 | However often a creation was cut short or lost: if all earlier visits list only nodes that the last creating or the deleting visit lists, the account balances. |
| Accounting.WhoLeavesAJob | pkg/controllers/collect_logs.go:87-166 | With no shared job, a node leaves a job behind exactly when the deleting visit does not list it and the last creating visit lists it or an abandoned attempt left its job. |
| Accounting.LeftBehindExactly | pkg/controllers/collect_logs.go:87-166 | If only one visit enters the creating stage and one the deleting stage, both to the end, and whatever the other visits run into, the account balances. |
| Accounting.LeftBehindAtMost | pkg/controllers/collect_logs.go:87-166 | For all visits: what is left is within what was there before and the jobs of every node ever listed, less those of the nodes of a last visit that deletes to the end. |
| Accounting.RepeatedCreationLeavesMore | pkg/controllers/collect_logs.go:87-101 | A creation cut short after one node and repeated without that node: its job is still there at the end, so no account by one creating and one deleting visit balances. |
| Accounting.RepeatedCreationIsAbandoned | pkg/controllers/collect_logs.go:87-101 | At that input the condition of the exact account fails. |
| Accounting.CutShortLeavesOne | pkg/controllers/collect_logs.go:87-101 | The concrete first visit of that run: one of two jobs created, the stage not finished. |
| Accounting.VisitAccounts | pkg/controllers/collect_logs.go:37-166 | One visit, however it ends: only the bodies of the creating and the deleting stage touch the node jobs, and a visit that enters neither leaves them alone. |
| Accounting.LeaversLeaveJobs | pkg/controllers/collect_logs.go:87-166 | So with no shared jobs a node leaves a job behind exactly when it left the labelled union between the two stages. |
| NvmeshConf.ParseMeans | pkg/controllers/core_controller.go:234-248 | For every text: a key is in the result iff some line has it before its first equals sign, and its value is what follows that sign in the last such line, empty without one. |
| NvmeshConf.PrintMeans | pkg/controllers/core_controller.go:250-268 | A non-empty map without line breaks prints as one line per key, in ascending order, each the key, an equals sign and its value. |
| NvmeshConf.RoundTripExactly | pkg/controllers/core_controller.go:234-268 | parse(print(d)) = d if and only if d is non-empty, no key holds '=' or a line break and no value a line break. |
| NvmeshConf.NormalFormIsStable | pkg/controllers/core_controller.go:234-268 | For every text, printing what was parsed is a fixed point of print after parse, with the same meaning. |
| NvmeshConf.PrintIsInjective | pkg/controllers/core_controller.go:250-268 | Printable maps print alike if and only if they are equal. |
| NvmeshConf.PrintIgnoresMapOrder | pkg/controllers/core_controller.go:250-268 | Every enumeration of the keys sorts to the same list and prints the same text. |
| NvmeshConf.MergeIsExact | pkg/controllers/core_controller.go:115-140 | The merged text reads as expected's value on every expected key and as current's on every other current key; the flag is set iff some key's lookup differs between merged and current. |
| NvmeshConf.MergeConverges | pkg/controllers/core_controller.go:115-140 | Merging into the merged text asks for nothing and changes nothing. |
| NvmeshConf.ConfigStringToDict | pkg/controllers/core_controller.go:234-248 | The parsing loop fills the map that the parse of the text is. |
| NvmeshConf.ConfigDictToString | pkg/controllers/core_controller.go:250-268 | Whatever order the map is ranged over, the loop and sort give the one printed text. |
| NvmeshConf.ShouldUpdateNVMeshConf | pkg/controllers/core_controller.go:115-140 | The in-place merge returns the merged text and the flag that MergeIsExact characterises. |
| CoreConfigMap.ConfigMap.InitCoreConfigMap | pkg/controllers/core_controller.go:286-338 | The overwritten data is the expected data for this spec, field by field. |
| CoreConfigMap.ConfigMap.ShouldUpdateCoreConfigMap | pkg/controllers/core_controller.go:142-159 | Asks for an update iff some expected field differs, and leaves the merged conf in the expected object and the found object alone. |
| CoreConfigMap.ExpectedConfExactly | pkg/controllers/core_controller.go:297-336 | A reader of the expected conf sees the shipped settings overlaid with the spec's if and only if the spec's values are free of line breaks. |
| CoreConfigMap.FieldsMean | pkg/controllers/core_controller.go:286-338 | The fields beside nvmesh.conf: file server address or its default, certificate check, module parameters; all other shipped fields as they are. |
| CoreConfigMap.ManagementMeans | pkg/controllers/core_controller.go:270-284 | The list of management servers is always there, quoted and joined by commas. |
| CoreConfigMap.ServersMean | pkg/controllers/core_controller.go:270-280 | One management server per replica, numbered from zero. |
| CoreConfigMap.TcpMeans | pkg/controllers/core_controller.go:307-311 | The three network settings are there iff the spec asks for TCP only, with their quoted values. |
| CoreConfigMap.CloudMeans | pkg/controllers/core_controller.go:313-319 | The three cloud settings are there iff the spec asks for Azure. |
| CoreConfigMap.ExclusionsMean | pkg/controllers/core_controller.go:321-331 | Serial numbers and device paths are each there iff the spec lists them. |
| CoreConfigMap.ReconcileSetsFields | pkg/controllers/core_controller.go:142-159 | After one reconcile every expected field but nvmesh.conf reads as expected. |
| CoreConfigMap.SecondReconcileIsQuiet | pkg/controllers/ctrl_utils.go:113-136 | With the spec held fixed a second reconcile has nothing to write and changes nothing. |
| Deployment.ConfigMapPass | pkg/controllers/ctrl_utils.go:90-142 | One pass over the ConfigMap on the API server, errors included, leaves it as before or as the reconcile of the lemmas above says, the latter if it succeeds, and asks for no write unless one is due. |
| CoreConfigMap.ReconcileOverlays | pkg/controllers/core_controller.go:142-159 | After one reconcile the spec's and the shipped settings are in force and everything else reads as before. |
| Deployment.UserSettingsSurvive | pkg/controllers/core_controller.go:115-159 | Over any sequence of creating passes over the core directory with any specs, failing and dying ones included, a setting the operator never manages keeps its value, or stays absent. |
| Conditions.HistoryIsRecorded | pkg/conditions/conditions.go:32-56 | After any calls from the empty list: one entry per kind in first-seen order, holding the latest status, reason and message and the time of the last call that changed its status. |
| Conditions.ConditionList.SetStatusCondition | pkg/conditions/conditions.go:32-56 | The in-place update of the list, entry by entry. |
| Conditions.ConditionList.RemoveStatusCondition | pkg/conditions/conditions.go:60-72 | Drops the kind, and panics exactly on an empty list. |
| Conditions.RemovedKindIsGone | pkg/conditions/conditions.go:60-72 | Removal takes out this kind and nothing else. |
| Conditions.RemovalInOrder | pkg/conditions/conditions.go:60-72 | Removal works entry by entry and keeps the order. |
| Conditions.FindStatusCondition | pkg/conditions/conditions.go:75-83 | The index of the first entry of the kind, or the length. |
| Uninstall.UninstallCluster | pkg/controllers/uninstall.go:31-121 | The stage loop with its updates of status and Disabled flags, against the function the protocol lemmas are about. |
| Uninstall.TakeStage | pkg/controllers/uninstall.go:94-112 | One iteration: skip if finished, mark started, run, drop the error on a requeue, mark finished. |
| Uninstall.Run | pkg/controllers/uninstall.go:43-92 | The body of each stage. |
| Uninstall.RemoveAllWorkloadsExceptMongo | pkg/controllers/uninstall.go:133-150 | Core, then CSI, then management objects; the first error ends it. |
| Uninstall.WaitForWorkloadsToFinish | pkg/controllers/uninstall.go:171-193 | Done exactly when the listing of the four components is empty. |
| Uninstall.WaitForClearDBToFinish | pkg/controllers/uninstall.go:152-169 | Waits only while the job is busy; any other outcome, errors included, deletes it and goes on. |
| Uninstall.GetNodesWithLabel | pkg/controllers/uninstall.go:230-242 | The listed names; a not-found error reads as no nodes. |
| Uninstall.GetAllNVMeshClusterNodes | pkg/controllers/uninstall.go:252-276 | The duplicate-free union of client- and target-labelled nodes. |
| Uninstall.RunUninstallJobs | pkg/controllers/uninstall.go:195-206 | A job is asked for on every node; errors are forgotten. |
| Uninstall.WaitForUninstallCompletion | pkg/controllers/uninstall.go:282-294 | Stops at the first job that is not done. |
| Uninstall.DeleteNodeJobs | pkg/controllers/uninstall.go:296-308 | Stops at the first job that cannot be deleted. |
| Uninstall.UninstallAllNodes | pkg/controllers/uninstall.go:340-367 | List, create, wait, delete, with one order of the node set. |
| Uninstall.DeletePVCs | pkg/controllers/uninstall.go:408-433 | Every marked claim is tried; failures are forgotten. |
| Uninstall.DeleteClusterServiceAccount | pkg/controllers/uninstall.go:386-406 | Account, role, binding; an error asks for another turn. |
| Finalizer.HandleClusterFinalizer | pkg/controllers/finalizer.go:45-65 | Takes the finalizer on a live resource; without ours, a resource being deleted is not stopped here. |
| Finalizer.DoBeforeDeletingNVMesh | pkg/controllers/finalizer.go:67-111 | Gate, uninstall, then either store the progress in one unretried write or drop the finalizer. |
| Finalizer.IsAllowedToDeleteCluster | pkg/controllers/finalizer.go:113-140 | Both checks, both overridden by the same flag. |
| Finalizer.VerifyNoVolumeAttachments | pkg/controllers/finalizer.go:142-170 | An error iff the listing failed or holds an attached attachment of our driver; a panic iff some listed attachment names no volume. |
| Gate.PersistentVolumeOverrideIsNeverRead | pkg/controllers/finalizer.go:113-140 | Flipping the override documented for persistent volumes changes nothing of the two checks. |
| Finalizer.VerifyNoPersistentVolumes | pkg/controllers/finalizer.go:172-196 | An error iff the listing failed or holds a volume of our driver. |
| Finalizer.UpdateCustomResource | pkg/controllers/finalizer.go:34-43 | On success the copy is what was stored, stored status included. |
| Protocol.RemovedStringIsGone | pkg/controllers/finalizer.go:208-215 | Removing a string takes out every occurrence and nothing else. |
| Protocol.RemovalInOrder | pkg/controllers/finalizer.go:208-215 | Removal works entry by entry and keeps the order. |
| Objects.MakeSureObjectExists | pkg/controllers/ctrl_utils.go:90-142 | Create, update or leave, per lookup and component; losing a creation race is success. |
| Objects.MakeSureObjectRemoved | pkg/controllers/ctrl_utils.go:144-177 | Delete what is found; a missing SecurityContextConstraints kind is tolerated, an object gone between lookup and delete is an error. |
| Objects.RestartStatefulSet | pkg/controllers/ctrl_utils.go:620-642 | The read-annotate-write loop, retried on conflict. |
| Objects.ReconcileYamlObjectsFromFile | pkg/controllers/ctrl_utils.go:198-227 | The file loop; the first error is reported at the end. |
| Objects.ReconcileYamlObjectsFromDir | pkg/controllers/ctrl_utils.go:237-251 | The directory loop; the first failing file ends it. |
| Jobs.WaitForJobToFinish | pkg/controllers/jobs.go:25-69 | The verdict on a job: a failed pod outweighs a success, a success an active pod, an active pod a failed condition. |
| Jobs.WaitExactly | pkg/controllers/jobs.go:29-69 | One look: done iff no pod failed and as many succeeded as asked for; a wait of a second iff none failed, fewer or more succeeded, and a pod is active or the job has no failed condition; failed otherwise; an unreadable job is its error. |
| Jobs.DeleteJobAndPods | pkg/controllers/jobs.go:78-102 | The job and then each of its pods; what is already gone is no error. |
| StageEffects.JobIsSwept | pkg/controllers/jobs.go:78-102 | Success means the job was deleted or not found and then each pod listed for it was deleted or not found. |
| Tasks.IsTaskFinished | pkg/controllers/nvmesh_actions.go:127-155 | Reading a task creates the action's empty entry and nothing else. |
| Tasks.SetTaskStatus | pkg/controllers/nvmesh_actions.go:141-151 | Sets one task of one action and nothing else. |
| Tasks.TasksMean | pkg/controllers/nvmesh_actions.go:127-155 | Reading leaves an empty entry behind and no other trace, setting changes one task of one action, and finished is what is recorded as TaskFinished. |
| StatusUpdater.UpdateCrStatus | pkg/controllers/status_updater.go:88-117 | The retry loop: re-read only after a conflict, write the status of entry. |
| StatusUpdater.ManageSuccess | pkg/controllers/status_updater.go:20-50 | Sets Ready, stores the status, asks for another cycle if that fails. |
| StatusUpdater.ManageError | pkg/controllers/status_updater.go:57-85 | Clears Ready with the error as reason, stores the status, asks for another cycle if that fails. |
| CollectLogs.HandleCollectLogs | pkg/controllers/collect_logs.go:37-143 | The five stages with their updates of the status map, against the function the accounting lemmas are about. |
| CollectLogs.DeleteCollectLogJobs | pkg/controllers/collect_logs.go:145-166 | The two fixed jobs and then one per node of this cycle's list. |
| Management.ReconcileMgmt | pkg/controllers/mgmt_controller.go:52-94 | Mongo objects, then the database, then the init job, a wait or the management objects. |
| Management.HandleDBManipulations | pkg/controllers/mgmt_controller.go:96-161 | Find, sweep the init job, write the flags if they differ, restart. |
| Management.IsStringArraysEqualElements | pkg/controllers/mgmt_controller.go:436-461 | True iff both lists have the same set of elements; repetitions do not count. |
| Reconciler.ReconcileCycle | pkg/controllers/nvmesh_controller.go:71-146 | The whole cycle, as the function all run lemmas are about. |
| Reconciler.ReconcileAllComponents | pkg/controllers/nvmesh_controller.go:149-183 | Every component gets its turn, the first error is reported, the delay is always zero. |
| Reconciler.HandlePendingActions | pkg/controllers/nvmesh_actions.go:35-59 | The loop over the list the pass started with, with that list's indexes. |
| Reconciler.RemoveAction | pkg/controllers/nvmesh_actions.go:70-84 | Takes out the entry at the index; panics exactly when the list has no such index. |
| ActionPass.PassPanicsExactly | pkg/controllers/nvmesh_actions.go:38-48 | When the action of turn i completes, the pass panics if and only if 2i is past the list it started with; otherwise the entry taken off is the one at 2i. |
| ActionPass.RemainingIsEverySecond | pkg/controllers/nvmesh_actions.go:38-42 | After i completed turns the list in hand has i entries less and ends in the original from 2i on. |
| ActionPass.SecondOfTwoPanics | pkg/controllers/nvmesh_actions.go:38-48 | With two entries, the second completing after the first panics. |
| ActionPass.ErrorIsDropped | pkg/controllers/nvmesh_controller.go:117-146 | Components that fail without asking for another cycle leave no trace: the cycle goes on to the actions. |
| ActionPass.ReadyAlthoughCoreFailed | pkg/controllers/nvmesh_controller.go:117-146 | A cluster where the core component fails and the resource is stored as ready. |
| Reconciler.RemoveFinishedActionStatuses | pkg/controllers/nvmesh_actions.go:86-112 | Keeps exactly the statuses of actions still in the spec; asks for another cycle iff any was dropped. |
| Reconciler.MakeSureServiceAccountExists | pkg/controllers/ctrl_utils.go:577-602 | Account, role and binding at the start of every cycle. |
| Shipment.ShippedFits | resources/nvmesh-core/0600_client-daemon-set.yaml:1-17 | With the shipped objects, however spread over files, the workload DaemonSets are listed, no mongo object is listed elsewhere, and neither the service account nor a volume claim is listed. |
| Shipment.FreshClusterBegins | pkg/controllers/nvmesh_controller.go:71-104 | Every cluster with the shipped objects in which no action status is recorded is a start of the runs above. |

## Where code and documentation disagree

The model follows the code.

- Both volume checks read the override for volume attachments (pkg/controllers/finalizer.go:132); the documented override
  for persistent volumes (pkg/api/v1/nvmesh_types.go:175-176) is never read
  (Gate.PersistentVolumeOverrideIsNeverRead).
- A resource being deleted without our finalizer is reconciled like any other, despite the comment at
  pkg/controllers/finalizer.go:51-52.
- The requeue delay of several components is not the smallest but zero (pkg/controllers/nvmesh_controller.go:156-170).
- Errors of components that ask for no requeue are dropped, so Ready may be set although one failed
  (pkg/controllers/nvmesh_controller.go:117-146, ActionPass.ReadyAlthoughCoreFailed). Ready is also set while uninstalling
  (pkg/controllers/status_updater.go:27-32).
- The service account is recreated at the start of every cycle, so stage 8 has no lasting effect
  (pkg/controllers/nvmesh_controller.go:102).
- Clearing the database before mongo is removed is best effort (pkg/controllers/uninstall.go:160-162): CrashSafety states
  what is true, that the job was seen not busy.
- Turning a core option off leaves its keys in nvmesh.conf: to the merge they are user keys
  (pkg/controllers/core_controller.go:131-136).

## Assumptions about the rest of the cluster

They are the definition of `Kube.Enabled`. A workload pod is spawned only by a DaemonSet that still exists; nobody else
creates objects the operator's directories list; a resource marked for deletion stays marked and takes no new finalizer;
only the operator writes its status. A run follows one incarnation of the custom resource: it is not created again under
the same name.

## Left out

- Accounting.NothingLeftBehind: about the visits to one requested action, given as the system states at which they start; Collecting.NoJobGoesUnfinished derives the account for whole cycles.
- Termination.UninstallEnds: between the requests of a cycle only pods go, jobs succeed, the settings change and time passes; all other harmless moves fall between cycles. An object that vanishes between lookup and delete makes its stage report an error, which is a failure here. Failures are allowed before, not after.
- LiveCycle.LiveCycleTakesEffect: nobody else writes objects during the cycle; a stale management ConfigMap is the failing case that Deployment.ManagementPromiseExactly is about.
- StageEffects.TurnDoes: nobody else writes objects during the turn; what a stage leaves behind whoever interferes is Runs.CrashSafety.
- Bootstrap.ManagementWaitsForSettings: a connection error of the Mongo driver is one of the errors the settings lookup can report.
- StatusUpdater.UpdateCrStatus: statuses are values, so the status map shared between the saved copy and the re-read resource is not modelled.
- Pod specs beyond images, pull policies and environments, labels, owner references, RBAC subjects, volume claims, S3 credentials and defaulted spec fields: single-branch facts.
- Management's configuration as JSON text is a parameter of the spec: the encoding is a library's.
- A workload object stored without containers, which the API server refuses, makes the property-path comparison panic; here its first image reads as empty.
- The read-only debug output of jobs and pods, events, logging, the management GUI URL in the status.
- The text form of timestamps: an annotation or a transition time is the clock's number.
- YAML decoding and listing of directories: a directory is a list of files, a file is unreadable or a list of objects; documents that fail to parse are not in the list.
- Finalizers of objects other than the custom resource, and namespaces: an object deleted is gone, a key is kind and name.
- The result of a cycle whose first read fails for another reason than a missing resource: it is retried in a second; the attempt to report the error on an empty resource is not modelled.
- Every write raises one global revision, also one that changes nothing.
- The steps of client-go's retry helpers are the constants 5 and 4; the delays between tries do not matter here.
- removeAction with an index past the list panics; in a cycle that is the death of the process.
- Accounting.AccountBalancesExactly: what the rest of a cycle does to stored tasks and node jobs between the visits is a condition on the sequence of visits; for a fixed set of nodes Collecting derives it. A deletion repeated after an error has the bound of Accounting.LeftBehindAtMost.
- Deployment.UserSettingsSurvive: over passes on the core directory in which nobody else writes objects; a cycle that removes the directory takes the ConfigMap away.
- The property-path walker of pkg/reflectutils: it is used on three fixed paths, which are read directly; the unstructured-object and watcher code and the node-label listener: unused in the modelled flow.
- An update of the core ConfigMap replaces the whole data, so user fields other than nvmesh.conf are lost; the model does that too, and claims nothing about them.
