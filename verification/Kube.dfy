/** The cluster the operator talks to: stored objects, the moves of everybody else, and the one
    operation through which the operator acts, `Call`. */
module Kube {
  import opened Basics
  import opened Strings
  import opened Conditions
  import opened CoreConfigMap

  // ---- stored things -------------------------------------------------------------------------

  datatype Key = Key(kind: string, name: string)

  datatype EnvVar = EnvVar(name: string, value: string)

  datatype Container = Container(name: string, image: string, pullPolicy: string, env: seq<EnvVar>)

  /** As much of an object as the operator fills in or compares. `entries` are the data of a ConfigMap or the
      annotations of a pod template. */
  datatype Fields = Fields(
    entries: map<string, string>,
    containers: seq<Container>,
    replicas: int,
    externalIPs: Option<seq<string>>,
    clusterIP: string)

  const BARE := Fields(map[], [], 0, None, "")

  /** An object as a YAML document describes it. */
  datatype Manifest = Manifest(key: Key, fields: Fields)

  datatype YamlFile = Unreadable | Readable(manifests: seq<Manifest>)

  datatype Stored = Stored(fields: Fields, version: nat)

  datatype Pod = Pod(name: string, component: string, job: string)

  datatype Job = Job(completions: nat, failed: nat, succeeded: nat, active: nat, failedCondition: bool)

  const NEW_JOB := Job(1, 0, 0, 0, false)

  datatype Node = Node(name: string, labels: set<string>)

  /** A volume attachment names its volume, or carries an inline one and names none. */
  datatype Attachment = Attachment(attached: bool, attacher: string, volume: Option<string>)

  datatype Volume = Volume(name: string, driver: Option<string>)

  /** The `hidden` part of the globalSettings document. */
  datatype DbSettings = DbSettings(autoFormatDrive: bool, autoEvictMissingDrive: bool)

  datatype Action = Action(name: string, args: map<string, string>)

  /** What the components write into the objects they deploy. `mgmtConfig` is management's configuration as JSON
      text. */
  datatype DeploySpec = DeploySpec(
    coreVersion: string,
    coreRegistry: string,
    coreTag: string,
    csiVersion: string,
    csiRegistry: string,
    csiReplicas: int,
    mgmtVersion: string,
    mgmtRegistry: string,
    mgmtConfig: string,
    externalIPs: Option<seq<string>>,
    pullAlways: bool,
    keepRunning: bool)

  datatype Spec = Spec(
    core: CoreSpec,
    deploy: DeploySpec,
    coreDisabled: bool,
    csiDisabled: bool,
    mgmtDisabled: bool,
    mongoExternal: bool,
    mongoAddress: string,
    disableAutoFormatDrives: bool,
    disableAutoEvictMissingDrives: bool,
    ignoreVolumeAttachmentOnDelete: bool,
    ignorePersistentVolumesOnDelete: bool,
    skipUninstall: bool,
    actions: seq<Action>)

  type TaskMap = map<string, string>

  datatype CrStatus = CrStatus(actions: map<string, TaskMap>, conditions: seq<Condition>)

  /** The NVMesh custom resource. `version` is its resource version. */
  datatype Cr = Cr(spec: Spec, status: CrStatus, finalizers: seq<string>, deleting: bool, version: nat)

  const CLUSTER_FINALIZER := "cluster.finalizers.nvmesh.excelero.com"

  predicate Ours(cr: Cr)
  {
    CLUSTER_FINALIZER in cr.finalizers
  }

  /** The cycle holding this copy of the custom resource is taking the cluster down. */
  predicate Uninstalling(cr: Cr)
  {
    cr.deleting && Ours(cr)
  }

  datatype Plan = Leave | Write(fields: Fields) | WriteAndRestart(fields: Fields)

  /** How a component fills in a manifest, and what it wants done about an object that exists. */
  datatype Component = Component(
    init: (Spec, Manifest) -> Option<Fields>,
    plan: (Spec, Manifest, Fields) -> Plan)

  /** What the operator image ships: one directory per component, and kinds this API server lacks. */
  datatype Resources = Resources(
    core: seq<YamlFile>, csi: seq<YamlFile>, mgmt: seq<YamlFile>, mongo: seq<YamlFile>,
    coreComponent: Component, csiComponent: Component, mgmtComponent: Component,
    unknownKinds: set<string>)

  predicate Lists(files: seq<YamlFile>, key: Key)
  {
    exists f, m :: f in files && f.Readable? && m in f.manifests && m.key == key
  }

  predicate Workload(res: Resources, key: Key)
  {
    Lists(res.core, key) || Lists(res.csi, key) || Lists(res.mgmt, key)
  }

  predicate Managed(res: Resources, key: Key)
  {
    Workload(res, key) || Lists(res.mongo, key)
  }

  const SERVICE_ACCOUNT := Manifest(Key("ServiceAccount", "nvmesh-cluster"), BARE)
  const CLUSTER_ROLE := Manifest(Key("Role", "nvmesh-cluster-role"), BARE)
  const ROLE_BINDING := Manifest(Key("RoleBinding", "nvmesh-cluster-rb"), BARE)

  // ---- pods and the DaemonSets that spawn them -------------------------------------------------

  predicate IsWorkloadComponent(component: string)
  {
    component == "client" || component == "target" || component == "mcs-agent" || component == "csi-node-driver"
  }

  function DaemonSetOf(component: string): Key
  {
    Key("DaemonSet",
        if component == "csi-node-driver" then "nvmesh-csi-node-driver" else "nvmesh-" + component)
  }

  /** The directories fit together: the DaemonSets of the workload pods are among the workload objects,
      and no file lists an object of another directory's phase, the service account, or a volume claim. */
  ghost predicate Shipped(res: Resources)
  {
    && (forall c :: IsWorkloadComponent(c) ==> Workload(res, DaemonSetOf(c)))
    && (forall k :: Workload(res, k) ==> !Lists(res.mongo, k))
    && !Managed(res, SERVICE_ACCOUNT.key) && !Managed(res, CLUSTER_ROLE.key) && !Managed(res, ROLE_BINDING.key)
    && (forall k :: Managed(res, k) ==> k.kind != PVC)
  }

  const PVC := "PersistentVolumeClaim"

  // ---- requests, replies and the log -----------------------------------------------------------

  datatype Error = NotFound | AlreadyExists | Conflict | NoKindMatch | Unexpected | Unreachable
                 | NoDocuments | JobFailed | VolumesInUse | UnknownAction | Invalid | Rejected

  datatype Request =
    | GetCr | UpdateCr(cr: Cr) | UpdateStatus(cr: Cr)
    | GetObject(key: Key) | CreateObject(manifest: Manifest)
    | UpdateObject(manifest: Manifest, version: Option<nat>) | DeleteObject(key: Key)
    | ListWorkloadPods | ListJobPods(job: string) | DeletePod(name: string)
    | CreateJob(job: string) | GetJob(job: string) | DeleteJob(job: string)
    | ListNodes(nodeLabel: string) | ListAttachments | ListVolumes | ListMarkedPvcs
    | FindSettings | UpdateSettings(settings: DbSettings)

  datatype Reply =
    | Silence | Done | Fails(error: Error)
    | CrIs(cr: Cr) | ObjectIs(stored: Stored) | PodsAre(pods: seq<Pod>) | JobIs(job: Job)
    | NodesAre(names: seq<string>) | AttachmentsAre(attachments: seq<Attachment>) | VolumesAre(volumes: seq<Volume>)
    | PvcsAre(names: seq<string>) | SettingsAre(settings: DbSettings)

  /** One request, what the caller was told, whether it took effect, and whether the caller was uninstalling. */
  datatype Entry = Entry(request: Request, reply: Reply, landed: bool, uninstalling: bool)

  datatype World = World(
    res: Resources,
    cr: Option<Cr>,
    objs: map<Key, Stored>,
    pods: seq<Pod>,
    jobs: map<string, Job>,
    nodes: seq<Node>,
    attachments: seq<Attachment>,
    volumes: seq<Volume>,
    pvcs: seq<string>,
    db: Option<DbSettings>,
    now: nat,
    revision: nat,
    log: seq<Entry>)

  // ---- what the API server does with a request -------------------------------------------------

  function WorkloadPods(pods: seq<Pod>): seq<Pod>
  {
    if pods == [] then []
    else (if IsWorkloadComponent(pods[0].component) then [pods[0]] else []) + WorkloadPods(pods[1..])
  }

  function JobPods(pods: seq<Pod>, job: string): seq<Pod>
  {
    if pods == [] then []
    else (if pods[0].job == job then [pods[0]] else []) + JobPods(pods[1..], job)
  }

  function PodsExcept(pods: seq<Pod>, name: string): seq<Pod>
  {
    if pods == [] then []
    else (if pods[0].name == name then [] else [pods[0]]) + PodsExcept(pods[1..], name)
  }

  function Labelled(nodes: seq<Node>, key: string): seq<string>
  {
    if nodes == [] then []
    else (if key in nodes[0].labels then [nodes[0].name] else []) + Labelled(nodes[1..], key)
  }

  function Claims(pvcs: seq<string>, objs: map<Key, Stored>): seq<string>
  {
    if pvcs == [] then []
    else (if Key(PVC, pvcs[0]) in objs then [pvcs[0]] else []) + Claims(pvcs[1..], objs)
  }

  /** A custom resource marked for deletion disappears with its last finalizer. */
  function StoreCr(w: World, cr: Cr): World
  {
    w.(cr := if cr.deleting && cr.finalizers == [] then None else Some(cr.(version := w.revision + 1)),
       revision := w.revision + 1)
  }

  function StoreObject(w: World, key: Key, fields: Fields): World
  {
    w.(objs := w.objs[key := Stored(fields, w.revision + 1)], revision := w.revision + 1)
  }

  predicate Fresh(w: World, cr: Cr)
  {
    w.cr.Some? && w.cr.value.version == cr.version
  }

  function Effect(w: World, q: Request): World
  {
    match q
    case UpdateCr(c) =>
      if Fresh(w, c) then StoreCr(w, w.cr.value.(spec := c.spec, finalizers := c.finalizers)) else w
    case UpdateStatus(c) =>
      if Fresh(w, c) then StoreCr(w, w.cr.value.(status := c.status)) else w
    case CreateObject(m) =>
      if m.key in w.objs || m.key.kind in w.res.unknownKinds then w else StoreObject(w, m.key, m.fields)
    case UpdateObject(m, v) =>
      if m.key in w.objs && (v.None? || v.value == w.objs[m.key].version) then StoreObject(w, m.key, m.fields) else w
    case DeleteObject(k) => w.(objs := w.objs - {k})
    case DeletePod(n) => w.(pods := PodsExcept(w.pods, n))
    case CreateJob(n) => if n in w.jobs then w else w.(jobs := w.jobs[n := NEW_JOB])
    case DeleteJob(n) => w.(jobs := w.jobs - {n})
    case UpdateSettings(d) => if w.db.Some? then w.(db := Some(d)) else w
    case _ => w
  }

  function Answer(w: World, q: Request): Reply
  {
    match q
    case GetCr => if w.cr.Some? then CrIs(w.cr.value) else Fails(NotFound)
    case UpdateCr(c) => CrWritten(w, c, q)
    case UpdateStatus(c) => CrWritten(w, c, q)
    case GetObject(k) =>
      if k in w.objs then ObjectIs(w.objs[k])
      else if k.kind in w.res.unknownKinds then Fails(NoKindMatch)
      else Fails(NotFound)
    case CreateObject(m) =>
      if m.key in w.objs then Fails(AlreadyExists)
      else if m.key.kind in w.res.unknownKinds then Fails(NoKindMatch)
      else Done
    case UpdateObject(m, v) =>
      if m.key !in w.objs then Fails(NotFound)
      else if v.Some? && v.value != w.objs[m.key].version then Fails(Conflict)
      else Done
    case DeleteObject(k) => if k in w.objs then Done else Fails(NotFound)
    case ListWorkloadPods => PodsAre(WorkloadPods(w.pods))
    case ListJobPods(n) => PodsAre(JobPods(w.pods, n))
    case DeletePod(n) => if exists i :: 0 <= i < |w.pods| && w.pods[i].name == n then Done else Fails(NotFound)
    case CreateJob(n) => if n in w.jobs then Fails(AlreadyExists) else Done
    case GetJob(n) => if n in w.jobs then JobIs(w.jobs[n]) else Fails(NotFound)
    case DeleteJob(n) => if n in w.jobs then Done else Fails(NotFound)
    case ListNodes(l) => NodesAre(Labelled(w.nodes, l))
    case ListAttachments => AttachmentsAre(w.attachments)
    case ListVolumes => VolumesAre(w.volumes)
    case ListMarkedPvcs => PvcsAre(Claims(w.pvcs, w.objs))
    case FindSettings => if w.db.Some? then SettingsAre(w.db.value) else Fails(NoDocuments)
    case UpdateSettings(_) => if w.db.Some? then Done else Fails(Unexpected)
  }

  /** A successful write answers with the object as stored: an update leaves the status alone, a status
      update leaves everything else alone. */
  function CrWritten(w: World, c: Cr, q: Request): Reply
  {
    if w.cr.None? then Fails(NotFound)
    else if w.cr.value.version != c.version then Fails(Conflict)
    else if q.UpdateCr? then CrIs(w.cr.value.(spec := c.spec, finalizers := c.finalizers, version := w.revision + 1))
    else CrIs(w.cr.value.(status := c.status, version := w.revision + 1))
  }

  // ---- what everybody else does ----------------------------------------------------------------

  datatype EnvStep =
    | ClockTicks(d: nat)
    | PodGone(pod: string) | PodSpawned(spawned: Pod)
    | JobMoves(job: string, status: Job) | JobGone(job: string)
    | NodesBecome(nodes: seq<Node>)
    | ObjectGone(key: Key) | ObjectEdited(key: Key, fields: Fields) | ObjectAppears(key: Key, fields: Fields)
    | VolumesBecome(attachments: seq<Attachment>, volumes: seq<Volume>)
    | DbBecomes(db: Option<DbSettings>)
    | SpecEdited(spec: Spec) | FinalizersEdited(finalizers: seq<string>) | DeletionRequested

  /** The moves the rest of the cluster can make. A workload pod comes only from a DaemonSet that still
      exists; nobody else creates the operator's objects; a custom resource marked for deletion stays
      marked and takes no new finalizer; only the operator writes its status. */
  predicate Enabled(w: World, e: EnvStep)
  {
    match e
    case PodSpawned(p) => IsWorkloadComponent(p.component) ==> DaemonSetOf(p.component) in w.objs
    case JobMoves(n, _) => n in w.jobs
    case ObjectEdited(k, _) => k in w.objs
    case ObjectAppears(k, _) => k !in w.objs && !Managed(w.res, k)
    case SpecEdited(_) => w.cr.Some?
    case FinalizersEdited(fs) => w.cr.Some? && (w.cr.value.deleting ==> forall f :: f in fs ==> f in w.cr.value.finalizers)
    case DeletionRequested => w.cr.Some?
    case _ => true
  }

  function Moved(w: World, e: EnvStep): World
  {
    match e
    case ClockTicks(d) => w.(now := w.now + d)
    case PodGone(n) => w.(pods := PodsExcept(w.pods, n))
    case PodSpawned(p) => w.(pods := w.pods + [p])
    case JobMoves(n, j) => w.(jobs := w.jobs[n := j])
    case JobGone(n) => w.(jobs := w.jobs - {n})
    case NodesBecome(ns) => w.(nodes := ns)
    case ObjectGone(k) => w.(objs := w.objs - {k})
    case ObjectEdited(k, fields) => StoreObject(w, k, fields)
    case ObjectAppears(k, fields) => StoreObject(w, k, fields)
    case VolumesBecome(a, v) => w.(attachments := a, volumes := v)
    case DbBecomes(d) => w.(db := d)
    case SpecEdited(s) => if w.cr.Some? then StoreCr(w, w.cr.value.(spec := s)) else w
    case FinalizersEdited(fs) => if w.cr.Some? then StoreCr(w, w.cr.value.(finalizers := fs)) else w
    case DeletionRequested => if w.cr.Some? then StoreCr(w, w.cr.value.(deleting := true)) else w
  }

  /** A move that is not enabled does not happen. */
  function EnvStepped(w: World, e: EnvStep): World
  {
    if Enabled(w, e) then Moved(w, e) else w
  }

  function EnvRun(w: World, steps: seq<EnvStep>): World
    decreases |steps|
  {
    if steps == [] then w else EnvRun(EnvStepped(w, steps[0]), steps[1..])
  }

  // ---- the operator's side ---------------------------------------------------------------------

  /** How one request ends: answered; an error although it may have taken effect; or the operator dies
      waiting, again with or without effect. */
  datatype Verdict = Answered | Errored(unreachable: bool, landed: bool) | Died(landed: bool)

  /** What happens from one request to the next: moves of others, then the verdict. */
  datatype Tick = Tick(steps: seq<EnvStep>, verdict: Verdict)

  /** The system as one reconcile cycle sees it: the cluster, the cycle's copy of the custom resource,
      what is still to come, and the order in which Go ranges over maps in this cycle. */
  datatype Sys = Sys(w: World, cr: Cr, ticks: seq<Tick>, order: set<string> -> seq<string>)

  datatype Ans = Ans(s: Sys, reply: Reply)

  function ErrorOf(q: Request, v: Verdict): Error
  {
    if v.Errored? && v.unreachable && (q.FindSettings? || q.UpdateSettings?) then Unreachable else Unexpected
  }

  function Landed(v: Verdict): bool
  {
    v.Answered? || v.landed
  }

  function Noted(w: World, e: Entry): World
  {
    w.(log := w.log + [e])
  }

  /** One API request. When the script is over the operator is dead. */
  function Call(s: Sys, q: Request): Ans
  {
    if s.ticks == [] then Ans(s, Silence)
    else
      var v := s.ticks[0].verdict;
      var w := EnvRun(s.w, s.ticks[0].steps);
      var reply := if v.Answered? then Answer(w, q) else if v.Died? then Silence else Fails(ErrorOf(q, v));
      var after := if Landed(v) then Effect(w, q) else w;
      Ans(s.(w := Noted(after, Entry(q, reply, Landed(v), Uninstalling(s.cr))),
             ticks := if v.Died? then [] else s.ticks[1..]), reply)
  }

  /** Every request has its kind of answer, unless it fails. */
  predicate Fits(q: Request, reply: Reply)
  {
    reply.Silence? || reply.Fails? ||
    match q
    case GetCr => reply.CrIs?
    case UpdateCr(_) => reply.CrIs?
    case UpdateStatus(_) => reply.CrIs?
    case GetObject(_) => reply.ObjectIs?
    case ListWorkloadPods => reply.PodsAre?
    case ListJobPods(_) => reply.PodsAre?
    case GetJob(_) => reply.JobIs?
    case ListNodes(_) => reply.NodesAre?
    case ListAttachments => reply.AttachmentsAre?
    case ListVolumes => reply.VolumesAre?
    case ListMarkedPvcs => reply.PvcsAre?
    case FindSettings => reply.SettingsAre?
    case _ => reply == Done
  }

  lemma AnswersFit(s: Sys, q: Request)
    ensures Fits(q, Call(s, q).reply)
  {
  }

  /** Nobody moves, and the request is answered; or it fails without effect. */
  const ANSWERED := Tick([], Answered)
  const REFUSED := Tick([], Errored(false, false))

  lemma AnsweredCall(s: Sys, q: Request, rest: seq<Tick>)
    requires s.ticks == [ANSWERED] + rest
    ensures Call(s, q) == Ans(s.(w := Noted(Effect(s.w, q), Entry(q, Answer(s.w, q), true, Uninstalling(s.cr))), ticks := rest), Answer(s.w, q))
  {
    assert s.ticks[0] == ANSWERED && s.ticks[1..] == rest && EnvRun(s.w, []) == s.w;
  }

  lemma RefusedCall(s: Sys, q: Request, rest: seq<Tick>)
    requires s.ticks == [REFUSED] + rest
    ensures Call(s, q) == Ans(s.(w := Noted(s.w, Entry(q, Fails(Unexpected), false, Uninstalling(s.cr))), ticks := rest), Fails(Unexpected))
  {
    assert s.ticks[0] == REFUSED && s.ticks[1..] == rest && EnvRun(s.w, []) == s.w;
  }

  lemma {:induction false} EnvWritesNoLog(w: World, steps: seq<EnvStep>)
    ensures EnvRun(w, steps).log == w.log && EnvRun(w, steps).res == w.res
    decreases |steps|
  {
    if steps != [] { EnvWritesNoLog(EnvStepped(w, steps[0]), steps[1..]); }
  }

  lemma OneMoreEntry(s: Sys, q: Request)
    ensures var log := Call(s, q).s.w.log;
      if s.ticks == [] then log == s.w.log
      else |log| == |s.w.log| + 1 && log[|s.w.log|].request == q && log[..|s.w.log|] == s.w.log
  {
    if s.ticks != [] { EnvWritesNoLog(s.w, s.ticks[0].steps); }
  }

  // ---- results -----------------------------------------------------------------------------------

  datatype Result = Result(requeue: bool, after: nat)

  const DO_NOT_REQUEUE := Result(false, 0)

  function Requeue(seconds: nat): Result
  {
    Result(true, seconds)
  }

  /** How a Go function ends: the process died in it, or it returned a result and perhaps an error. */
  datatype Flow = Killed | Return(result: Result, err: Option<Error>)

  const OK := Return(DO_NOT_REQUEUE, None)

  function Fail(e: Error): Flow
  {
    Return(DO_NOT_REQUEUE, Some(e))
  }

  datatype Ran = Ran(s: Sys, flow: Flow)
}
