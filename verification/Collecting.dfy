/** The account of the collect-logs jobs over whole runs: whole reconcile cycles, cut short anywhere, with everything
    else they do in between, on a fixed set of labelled nodes. */
module Collecting {
  import opened Basics
  import opened Strings
  import opened Kube
  import opened Objects
  import opened Jobs
  import opened Tasks
  import opened StatusUpdater
  import opened Management
  import opened Uninstall
  import opened Finalizer
  import opened CollectLogs
  import opened Reconciler
  import opened NodeJobs
  import opened Accounting
  import Protocol
  import CycleSafety
  import opened Runs

  const COLLECT := "collect-logs"

  function CollectTasks(cr: Cr): TaskMap
  {
    TasksOf(cr.status, COLLECT)
  }

  /** Client-, target- and management-labelled nodes. */
  function LogNames(w: World): set<string>
  {
    Names(Labelled(w.nodes, CLIENT_LABEL)) + Names(Labelled(w.nodes, TARGET_LABEL)) + Names(Labelled(w.nodes, MGMT_LABEL))
  }

  /** The operator's other jobs have names that start otherwise. */
  predicate Theirs(job: string)
  {
    job != "" && job[0] == 'c'
  }

  lemma TheirNames(nodes: set<string>)
    ensures forall j :: j in AllJobs(nodes) ==> Theirs(j)
  {
    forall n | n in nodes ensures Theirs(LogsJob(n)) { assert LogsJob(n)[0] == 'c'; }
    assert DB_JOB[0] == 'c' && CONFIG_MAPS_JOB[0] == 'c';
  }

  // ---- requests that do not concern them ---------------------------------------------------------

  /** From s to t none of their jobs came, and none was asked for, either way; the copy is the same. */
  ghost predicate Apart(s: Sys, t: Sys)
  {
    && Follows(s, t) && JobsLeftAlone(t.ticks) && t.cr == s.cr
    && (forall j :: Theirs(j) && j in t.w.jobs ==> j in s.w.jobs)
    && (forall i :: |s.w.log| <= i < |t.w.log| ==> !Concerns(t.w.log[i].request))
  }

  predicate Concerns(q: Request)
  {
    (q.CreateJob? || q.DeleteJob?) && Theirs(q.job)
  }

  lemma ApartOn(r: Sys, s: Sys, t: Sys)
    requires Apart(r, s) && Apart(s, t)
    ensures Apart(r, t)
  {
  }

  lemma CallApart(s: Sys, q: Request)
    requires JobsLeftAlone(s.ticks) && !q.UpdateStatus? && !Concerns(q)
    ensures Apart(s, Call(s, q).s)
  {
    hide Call;
    JobsAfterCall(s, q);
    OneMoreEntry(s, q);
  }

  lemma {:induction false} RestartApart(s: Sys, key: Key, attempts: nat)
    requires JobsLeftAlone(s.ticks)
    ensures Apart(s, Restart(s, key, attempts).s)
    decreases attempts
  {
    hide Call, Follows;
    var found := Call(s, GetObject(key));
    CallApart(s, GetObject(key));
    if found.reply.ObjectIs? {
      var fields := Annotated(found.reply.stored.fields, TimeText(found.s.w.now));
      var q := UpdateObject(Manifest(key, fields), Some(found.reply.stored.version));
      var written := Call(found.s, q);
      CallApart(found.s, q);
      ApartOn(s, found.s, written.s);
      if written.reply == Fails(Conflict) && attempts > 1 {
        RestartApart(written.s, key, attempts - 1);
        ApartOn(s, written.s, Restart(written.s, key, attempts - 1).s);
      }
    }
  }

  lemma ApplyApart(s: Sys, key: Key, plan: Plan)
    requires JobsLeftAlone(s.ticks)
    ensures Apart(s, Apply(s, key, plan).s)
  {
    hide Call, Restart;
    if !plan.Leave? {
      var q := UpdateObject(Manifest(key, plan.fields), None);
      var t := Call(s, q).s;
      CallApart(s, q);
      RestartApart(t, MGMT_STATEFUL_SET, RESTART_ATTEMPTS);
      ApartOn(s, t, Restart(t, MGMT_STATEFUL_SET, RESTART_ATTEMPTS).s);
    }
  }

  lemma EnsureApart(s: Sys, component: Option<Component>, m: Manifest)
    requires JobsLeftAlone(s.ticks)
    ensures Apart(s, EnsureObject(s, component, m).s)
  {
    hide Call, Apply, Follows;
    var wanted := Initialised(s.cr, component, m);
    if wanted.Some? {
      var found := Call(s, GetObject(m.key));
      CallApart(s, GetObject(m.key));
      if found.reply == Fails(NotFound) {
        CallApart(found.s, CreateObject(wanted.value));
        ApartOn(s, found.s, Call(found.s, CreateObject(wanted.value)).s);
      } else if found.reply.ObjectIs? {
        var plan := PlanFor(s.cr, component, wanted.value, found.reply.stored.fields);
        ApplyApart(found.s, m.key, plan);
        ApartOn(s, found.s, Apply(found.s, m.key, plan).s);
      }
    } else {
      ApartFromItself(s);
    }
  }

  lemma ApartFromItself(s: Sys)
    requires JobsLeftAlone(s.ticks)
    ensures Apart(s, s)
  {
  }

  lemma RemovalApart(s: Sys, key: Key)
    requires JobsLeftAlone(s.ticks)
    ensures Apart(s, RemoveObject(s, key).s)
  {
    hide Call, Follows;
    var found := Call(s, GetObject(key)).s;
    CallApart(s, GetObject(key));
    CallApart(found, DeleteObject(key));
    ApartOn(s, found, Call(found, DeleteObject(key)).s);
  }

  lemma {:induction false} ManifestsApart(s: Sys, component: Component, ms: seq<Manifest>, remove: bool, first: Option<Error>)
    requires JobsLeftAlone(s.ticks)
    ensures Apart(s, ReconcileManifests(s, component, ms, remove, first).s)
    decreases |ms|
  {
    hide EnsureObject, RemoveObject, Follows;
    ApartFromItself(s);
    if ms != [] {
      var one := ReconcileObject(s, Some(component), ms[0], remove);
      if remove { RemovalApart(s, ms[0].key); } else { EnsureApart(s, Some(component), ms[0]); }
      if !one.flow.Killed? {
        var error := FirstError(first, one.flow);
        ManifestsApart(one.s, component, ms[1..], remove, error);
        ApartOn(s, one.s, ReconcileManifests(one.s, component, ms[1..], remove, error).s);
      }
    }
  }

  lemma {:induction false} DirApart(s: Sys, component: Component, files: seq<YamlFile>, remove: bool)
    requires JobsLeftAlone(s.ticks)
    ensures Apart(s, ReconcileDir(s, component, files, remove).s)
    decreases |files|
  {
    hide ReconcileManifests, Follows;
    ApartFromItself(s);
    if files != [] {
      var one := ReconcileFile(s, component, files[0], remove);
      if files[0].Readable? { ManifestsApart(s, component, files[0].manifests, remove, None); }
      if one.flow == OK {
        DirApart(one.s, component, files[1..], remove);
        ApartOn(s, one.s, ReconcileDir(one.s, component, files[1..], remove).s);
      }
    }
  }

  lemma {:induction false} PodsApart(s: Sys, pods: seq<Pod>)
    requires JobsLeftAlone(s.ticks)
    ensures Apart(s, DeletePods(s, pods).s)
    decreases |pods|
  {
    hide Call, Follows;
    ApartFromItself(s);
    if pods != [] {
      var one := Call(s, DeletePod(pods[0].name)).s;
      CallApart(s, DeletePod(pods[0].name));
      PodsApart(one, pods[1..]);
      ApartOn(s, one, DeletePods(one, pods[1..]).s);
    }
  }

  lemma JobApart(s: Sys, job: string)
    requires JobsLeftAlone(s.ticks) && !Theirs(job)
    ensures Apart(s, StartJob(s, job).s) && Apart(s, WaitForJob(s, job).s) && Apart(s, RemoveJob(s, job).s)
  {
    hide Call, Follows;
    CallApart(s, CreateJob(job));
    CallApart(s, GetJob(job));
    var gone := Call(s, DeleteJob(job)).s;
    CallApart(s, DeleteJob(job));
    var listed := Call(gone, ListJobPods(job));
    CallApart(gone, ListJobPods(job));
    ApartOn(s, gone, listed.s);
    if listed.reply.PodsAre? {
      PodsApart(listed.s, listed.reply.pods);
      ApartOn(s, listed.s, DeletePods(listed.s, listed.reply.pods).s);
    }
  }

  lemma {:induction false} NodeJobsApart(s: Sys, nodes: seq<string>)
    requires JobsLeftAlone(s.ticks)
    ensures Apart(s, StartUninstallJobs(s, nodes).s)
    ensures Apart(s, AwaitUninstallJobs(s, nodes).s)
    ensures Apart(s, DeleteUninstallJobs(s, nodes).s)
    decreases |nodes|
  {
    hide StartJob, WaitForJob, RemoveJob, Follows;
    ApartFromItself(s);
    if nodes != [] {
      var job := UninstallJob(nodes[0]);
      assert job[0] == 'n';
      JobApart(s, job);
      var started, waited, gone := StartJob(s, job).s, WaitForJob(s, job).s, RemoveJob(s, job).s;
      NodeJobsApart(started, nodes[1..]);
      ApartOn(s, started, StartUninstallJobs(started, nodes[1..]).s);
      NodeJobsApart(waited, nodes[1..]);
      ApartOn(s, waited, AwaitUninstallJobs(waited, nodes[1..]).s);
      NodeJobsApart(gone, nodes[1..]);
      ApartOn(s, gone, DeleteUninstallJobs(gone, nodes[1..]).s);
    }
  }

  lemma ClusterNodesApart(s: Sys)
    requires JobsLeftAlone(s.ticks)
    ensures Apart(s, ClusterNodes(s).s)
  {
    hide Call, Follows;
    var clients := NodesWithLabel(s, CLIENT_LABEL).s;
    CallApart(s, ListNodes(CLIENT_LABEL));
    CallApart(clients, ListNodes(TARGET_LABEL));
    ApartOn(s, clients, NodesWithLabel(clients, TARGET_LABEL).s);
  }

  lemma UninstallNodesApart(s: Sys)
    requires JobsLeftAlone(s.ticks)
    ensures Apart(s, UninstallClusterNodes(s).s)
  {
    hide ClusterNodes, StartUninstallJobs, AwaitUninstallJobs, DeleteUninstallJobs, Follows;
    var listed := ClusterNodes(s);
    ClusterNodesApart(s);
    var nodes := s.order(listed.nodes);
    var started := StartUninstallJobs(listed.s, nodes).s;
    NodeJobsApart(listed.s, nodes);
    ApartOn(s, listed.s, started);
    var waited := AwaitUninstallJobs(started, nodes).s;
    NodeJobsApart(started, nodes);
    ApartOn(s, started, waited);
    NodeJobsApart(waited, nodes);
    ApartOn(s, waited, DeleteUninstallJobs(waited, nodes).s);
  }

  lemma {:induction false} ClaimsApart(s: Sys, names: seq<string>)
    requires JobsLeftAlone(s.ticks)
    ensures Apart(s, RemoveClaims(s, names).s)
    decreases |names|
  {
    hide RemoveObject, Follows;
    ApartFromItself(s);
    if names != [] {
      var one := RemoveObject(s, Key(PVC, names[0])).s;
      RemovalApart(s, Key(PVC, names[0]));
      ClaimsApart(one, names[1..]);
      ApartOn(s, one, RemoveClaims(one, names[1..]).s);
    }
  }

  lemma PvcsApart(s: Sys)
    requires JobsLeftAlone(s.ticks)
    ensures Apart(s, DeletePvcs(s).s)
  {
    hide Call, RemoveClaims, Follows;
    var listed := Call(s, ListMarkedPvcs);
    CallApart(s, ListMarkedPvcs);
    if listed.reply.PvcsAre? {
      ClaimsApart(listed.s, listed.reply.names);
      ApartOn(s, listed.s, RemoveClaims(listed.s, listed.reply.names).s);
    }
  }

  lemma AccountApart(s: Sys)
    requires JobsLeftAlone(s.ticks)
    ensures Apart(s, RemoveServiceAccount(s).s) && Apart(s, EnsureServiceAccount(s).s)
  {
    hide RemoveObject, EnsureObject, Follows;
    var account := RemoveObject(s, SERVICE_ACCOUNT.key).s;
    RemovalApart(s, SERVICE_ACCOUNT.key);
    var role := RemoveObject(account, CLUSTER_ROLE.key).s;
    RemovalApart(account, CLUSTER_ROLE.key);
    ApartOn(s, account, role);
    RemovalApart(role, ROLE_BINDING.key);
    ApartOn(s, role, RemoveObject(role, ROLE_BINDING.key).s);
    var account2 := EnsureObject(s, None, SERVICE_ACCOUNT).s;
    EnsureApart(s, None, SERVICE_ACCOUNT);
    var role2 := EnsureObject(account2, None, CLUSTER_ROLE).s;
    EnsureApart(account2, None, CLUSTER_ROLE);
    ApartOn(s, account2, role2);
    EnsureApart(role2, None, ROLE_BINDING);
    ApartOn(s, role2, EnsureObject(role2, None, ROLE_BINDING).s);
  }

  lemma WorkloadsApart(s: Sys)
    requires JobsLeftAlone(s.ticks)
    ensures Apart(s, RemoveWorkloads(s).s)
  {
    hide ReconcileDir, Follows;
    var res := s.w.res;
    var core := ReconcileDir(s, res.coreComponent, res.core, true).s;
    DirApart(s, res.coreComponent, res.core, true);
    var csi := ReconcileDir(core, res.csiComponent, res.csi, true).s;
    DirApart(core, res.csiComponent, res.csi, true);
    ApartOn(s, core, csi);
    DirApart(csi, res.mgmtComponent, res.mgmt, true);
    ApartOn(s, csi, ReconcileDir(csi, res.mgmtComponent, res.mgmt, true).s);
  }

  lemma ClearDbApart(s: Sys)
    requires JobsLeftAlone(s.ticks)
    ensures Apart(s, StartJob(s, CLEAR_DB_JOB).s) && Apart(s, AwaitClearDb(s).s)
  {
    hide StartJob, WaitForJob, RemoveJob, Follows;
    assert CLEAR_DB_JOB[0] == 'n';
    JobApart(s, CLEAR_DB_JOB);
    var waited := WaitForJob(s, CLEAR_DB_JOB).s;
    JobApart(waited, CLEAR_DB_JOB);
    ApartOn(s, waited, RemoveJob(waited, CLEAR_DB_JOB).s);
  }

  lemma StageApart(s: Sys, k: nat)
    requires JobsLeftAlone(s.ticks)
    ensures Apart(s, RunStage(s, k).s)
  {
    hide RemoveWorkloads, StartJob, AwaitClearDb, ReconcileDir, UninstallClusterNodes, DeletePvcs, RemoveServiceAccount, Call,
      Follows;
    if k == 0 { WorkloadsApart(s); }
    else if k == 1 { CallApart(s, ListWorkloadPods); }
    else if k == 2 || k == 3 { ClearDbApart(s); }
    else if k == 4 { DirApart(s, s.w.res.mgmtComponent, s.w.res.mongo, true); }
    else if k == 5 { UninstallNodesApart(s); }
    else if k == 6 { PvcsApart(s); }
    else { AccountApart(s); }
  }

  lemma VolumesApart(s: Sys)
    requires JobsLeftAlone(s.ticks)
    ensures Apart(s, AllowedToDelete(s).s)
  {
    hide Call, Follows;
    CallApart(s, ListAttachments);
    var first := VolumeCheck(s, ListAttachments).s;
    CallApart(first, ListVolumes);
    ApartOn(s, first, VolumeCheck(first, ListVolumes).s);
  }

  lemma SettingsApart(s: Sys)
    requires JobsLeftAlone(s.ticks)
    ensures Apart(s, StoreSettings(s).s)
  {
    hide Call, Restart, Follows;
    var q := UpdateSettings(WantedSettings(s.cr.spec));
    var written := Call(s, q).s;
    CallApart(s, q);
    RestartApart(written, MGMT_STATEFUL_SET, RESTART_ATTEMPTS);
    ApartOn(s, written, Restart(written, MGMT_STATEFUL_SET, RESTART_ATTEMPTS).s);
  }

  lemma DbApart(s: Sys)
    requires JobsLeftAlone(s.ticks)
    ensures Apart(s, HandleDb(s).s)
  {
    hide Call, RemoveJob, StoreSettings, Follows;
    var found := Call(s, FindSettings).s;
    CallApart(s, FindSettings);
    assert INIT_DB_JOB[0] == 'm';
    JobApart(found, INIT_DB_JOB);
    var swept := RemoveJob(found, INIT_DB_JOB).s;
    ApartOn(s, found, swept);
    SettingsApart(swept);
    ApartOn(s, swept, StoreSettings(swept).s);
  }

  lemma ManagementApart(s: Sys)
    requires JobsLeftAlone(s.ticks)
    ensures Apart(s, ReconcileManagement(s).s)
  {
    hide ReconcileDir, HandleDb, StartJob, Follows;
    var res := s.w.res;
    var mongo := ReconcileDir(s, res.mgmtComponent, res.mongo, !DeployMongo(s.cr.spec)).s;
    DirApart(s, res.mgmtComponent, res.mongo, !DeployMongo(s.cr.spec));
    DirApart(mongo, res.mgmtComponent, res.mgmt, true);
    ApartOn(s, mongo, ReconcileDir(mongo, res.mgmtComponent, res.mgmt, true).s);
    var handled := HandleDb(mongo).s;
    DbApart(mongo);
    ApartOn(s, mongo, handled);
    assert INIT_DB_JOB[0] == 'm';
    JobApart(handled, INIT_DB_JOB);
    ApartOn(s, handled, StartJob(handled, INIT_DB_JOB).s);
    var deploying := handled.w.res;
    DirApart(handled, deploying.mgmtComponent, deploying.mgmt, false);
    ApartOn(s, handled, ReconcileDir(handled, deploying.mgmtComponent, deploying.mgmt, false).s);
  }

  lemma ComponentsApart(s: Sys)
    requires JobsLeftAlone(s.ticks)
    ensures Apart(s, ReconcileAll(s).s)
  {
    hide ReconcileDir, ReconcileManagement, Follows;
    var mgmt := ReconcileManagement(s).s;
    ManagementApart(s);
    var core := ReconcileCore(mgmt).s;
    DirApart(mgmt, mgmt.w.res.coreComponent, mgmt.w.res.core, mgmt.cr.spec.coreDisabled);
    ApartOn(s, mgmt, core);
    DirApart(core, core.w.res.csiComponent, core.w.res.csi, core.cr.spec.csiDisabled);
    ApartOn(s, core, ReconcileCsi(core).s);
  }

  // ---- the invariant -----------------------------------------------------------------------------

  /** The labelled nodes are these and stay, and nobody else removes jobs. */
  ghost predicate Fixed(s: Sys, nodes: set<string>)
  {
    JobsLeftAlone(s.ticks) && NodesStay(s.ticks) && LogNames(s.w) == nodes && Orderly(s.order)
  }

  /** The tasks in hand and the tasks stored are in order and true. */
  ghost predicate Kept(s: Sys, nodes: set<string>)
  {
    && Fixed(s, nodes) && Ledger(CollectTasks(s.cr), s.w, 0, nodes)
    && (s.w.cr.Some? ==> Ledger(CollectTasks(s.w.cr.value), s.w, 0, nodes))
  }

  /** What is stored is not ahead of the copy. */
  ghost predicate InStep(s: Sys)
  {
    s.w.cr.Some? ==> NothingUndone(CollectTasks(s.w.cr.value), CollectTasks(s.cr))
  }

  /** Kept, and in step if it was. */
  ghost predicate Keeps(s: Sys, t: Sys, nodes: set<string>)
  {
    Kept(t, nodes) && (InStep(s) ==> InStep(t))
  }

  lemma LedgerApart(tasks: TaskMap, w: World, v: World, nodes: set<string>)
    requires w.log <= v.log && Ledger(tasks, w, 0, nodes)
    requires forall j :: Theirs(j) && j in v.jobs ==> j in w.jobs
    requires forall i :: |w.log| <= i < |v.log| ==> !Concerns(v.log[i].request)
    ensures Ledger(tasks, v, 0, nodes)
  {
    hide DoneSince;
    var jobs := AllJobs(nodes);
    TheirNames(nodes);
    if Finished(tasks, WAIT_FOR_JOBS) { AllDoneStays(w.log, v.log, 0, 0, jobs); }
    forall i | 0 <= i < |v.log| && v.log[i].request.DeleteJob? && v.log[i].request.job in jobs
      ensures DoneSince(v.log[..i], 0, v.log[i].request.job)
    {
      assert i < |w.log| && v.log[i] == w.log[i] && v.log[..i] == w.log[..i];
    }
  }

  lemma KeptApart(s: Sys, t: Sys, nodes: set<string>)
    requires Kept(s, nodes) && Apart(s, t)
    ensures Keeps(s, t, nodes)
  {
    hide Ledger, Theirs, Concerns;
    LedgerApart(CollectTasks(s.cr), s.w, t.w, nodes);
    if s.w.cr.Some? { LedgerApart(CollectTasks(s.w.cr.value), s.w, t.w, nodes); }
  }

  lemma KeepsOn(r: Sys, s: Sys, t: Sys, nodes: set<string>)
    requires Keeps(r, s, nodes) && Keeps(s, t, nodes)
    ensures Keeps(r, t, nodes)
  {
  }

  /** Another copy with the same tasks of this action. */
  lemma SameCopy(s: Sys, t: Sys, nodes: set<string>)
    requires t == s.(cr := t.cr) && CollectTasks(t.cr) == CollectTasks(s.cr)
    ensures Kept(s, nodes) <==> Kept(t, nodes)
    ensures InStep(s) <==> InStep(t)
  {
  }

  lemma OtherTaskSameCopy(s: Sys, task: string, value: string)
    ensures CollectTasks(WithTask(s, UNINSTALL, task, value).cr) == CollectTasks(s.cr)
    ensures CollectTasks(WithTouch(s, UNINSTALL).cr) == CollectTasks(s.cr)
  {
    assert UNINSTALL[0] == 'u' && COLLECT[0] == 'c';
  }

  // ---- writing the resource ----------------------------------------------------------------------

  lemma StatusCallKept(s: Sys, nodes: set<string>)
    requires Kept(s, nodes)
    ensures var a := Call(s, UpdateStatus(s.cr));
      && Keeps(s, a.s, nodes) && a.s.cr == s.cr
      && (a.reply.CrIs? ==> CollectTasks(a.reply.cr) == CollectTasks(s.cr))
  {
    hide Ledger, Theirs, NothingUndone, EnvRun;
    if s.ticks != [] {
      var w := EnvRun(s.w, s.ticks[0].steps);
      var v := Call(s, UpdateStatus(s.cr)).s.w;
      OthersAndJobs(s.w, s.ticks[0].steps);
      OthersAndNodes(s.w, s.ticks[0].steps);
      NodesAfterCall(s, UpdateStatus(s.cr));
      assert JobsLeftAlone(s.ticks[1..]);
      assert v.log[|s.w.log|].request == UpdateStatus(s.cr);
      LedgerApart(CollectTasks(s.cr), s.w, v, nodes);
      NothingUndoneHere(CollectTasks(s.cr));
      if s.w.cr.Some? { LedgerApart(CollectTasks(s.w.cr.value), s.w, v, nodes); }
      assert v.cr.Some? ==> w.cr.Some? && s.w.cr.Some? && (v.cr.value.status == s.cr.status || v.cr.value.status == w.cr.value.status);
    }
  }

  lemma {:induction false} WritingKept(s: Sys, status: CrStatus, attempts: nat, nodes: set<string>)
    requires Kept(WithStatus(s, status), nodes)
    ensures Keeps(WithStatus(s, status), WriteStatus(s, status, attempts).s, nodes)
    decreases attempts, 0
  {
    hide Call, Kept, InStep, CollectTasks;
    var ready := WithStatus(s, status);
    var a := Call(ready, UpdateStatus(ready.cr));
    StatusCallKept(ready, nodes);
    if a.reply.CrIs? {
      SameCopy(a.s, a.s.(cr := a.reply.cr), nodes);
    } else if a.reply == Fails(Conflict) && attempts > 1 {
      RereadingKept(a.s, status, attempts - 1, nodes);
    }
  }

  lemma {:induction false} RereadingKept(s: Sys, status: CrStatus, attempts: nat, nodes: set<string>)
    requires Kept(s, nodes) && s.cr.status == status
    ensures Keeps(s, RereadAndWrite(s, status, attempts).s, nodes)
    decreases attempts, 1
  {
    hide Call, Kept, InStep, Apart;
    var a := Call(s, GetCr);
    LeftAlone(s, nodes);
    CallApart(s, GetCr);
    KeptApart(s, a.s, nodes);
    assert a.s.cr == s.cr by { CopyApart(s, a.s); }
    if a.reply.CrIs? {
      var t := a.s.(cr := a.reply.cr);
      SameCopy(a.s, WithStatus(t, status), nodes);
      WritingKept(t, status, attempts, nodes);
    }
  }

  lemma LeftAlone(s: Sys, nodes: set<string>)
    requires Kept(s, nodes)
    ensures JobsLeftAlone(s.ticks)
  {
  }

  lemma CopyApart(s: Sys, t: Sys)
    requires Apart(s, t)
    ensures t.cr == s.cr
  {
  }

  lemma PushingKept(s: Sys, nodes: set<string>)
    requires Kept(s, nodes)
    ensures Keeps(s, PushStatus(s).s, nodes)
  {
    hide WriteStatus, Kept, InStep;
    assert WithStatus(s, s.cr.status) == s;
    WritingKept(s, s.cr.status, STATUS_ATTEMPTS, nodes);
  }

  lemma ReportingKept(s: Sys, issue: Error, result: Result, nodes: set<string>)
    requires Kept(s, nodes)
    ensures Kept(Succeed(s, result).s, nodes) && Kept(Complain(s, issue, result).s, nodes)
  {
    hide PushStatus, Kept, InStep;
    var ready := WithCondition(s, Ready(Conditions.True, ""));
    SameCopy(s, ready, nodes);
    PushingKept(ready, nodes);
    var unready := WithCondition(s, Ready(Conditions.False, ErrorText(issue)));
    SameCopy(s, unready, nodes);
    PushingKept(unready, nodes);
  }

  lemma NotingKept(s: Sys, result: Result, nodes: set<string>)
    requires Kept(s, nodes)
    ensures Keeps(s, NoteProgress(s, result).s, nodes)
  {
    hide Call, Kept, InStep, CollectTasks;
    var a := Call(s, UpdateStatus(s.cr));
    StatusCallKept(s, nodes);
    if a.reply.CrIs? { SameCopy(a.s, a.s.(cr := a.reply.cr), nodes); }
  }

  /** The update answers with the stored status. */
  lemma UpdateAnswersStored(s: Sys)
    ensures var a := Call(s, UpdateCr(s.cr));
      && (a.reply.CrIs? ==> s.w.cr.Some? && a.reply.cr.status == s.w.cr.value.status)
  {
    hide EnvRun;
    if s.ticks != [] { OthersAndNodes(s.w, s.ticks[0].steps); }
  }

  lemma UpdatingKept(s: Sys, nodes: set<string>)
    requires Kept(s, nodes)
    ensures Keeps(s, PushCr(s).s, nodes)
  {
    hide Call, Ledger, NothingUndone;
    var a := Call(s, UpdateCr(s.cr));
    CallApart(s, UpdateCr(s.cr));
    KeptApart(s, a.s, nodes);
    UpdateAnswersStored(s);
    if a.reply.CrIs? {
      LedgerApart(CollectTasks(s.w.cr.value), s.w, a.s.w, nodes) by { ApartFacts(s, a.s); }
      SameTasks(s.w.cr.value, a.reply.cr);
      assert NothingUndone(CollectTasks(a.reply.cr), CollectTasks(a.reply.cr)) by { NothingUndoneHere(CollectTasks(a.reply.cr)); }
    }
  }

  lemma SameTasks(c: Cr, d: Cr)
    requires c.status == d.status
    ensures CollectTasks(c) == CollectTasks(d)
  {
  }

  lemma NothingUndoneHere(tasks: TaskMap)
    ensures NothingUndone(tasks, tasks)
  {
  }

  lemma ApartFacts(s: Sys, t: Sys)
    requires Apart(s, t)
    ensures s.w.log <= t.w.log && (forall j :: Theirs(j) && j in t.w.jobs ==> j in s.w.jobs)
    ensures forall i :: |s.w.log| <= i < |t.w.log| ==> !Concerns(t.w.log[i].request)
  {
  }

  // ---- the uninstall -----------------------------------------------------------------------------

  lemma TurnKept(s: Sys, k: nat, nodes: set<string>)
    requires Kept(s, nodes)
    ensures Keeps(s, StageTurn(s, k).s, nodes)
  {
    hide RunStage, Kept, InStep, Apart, CollectTasks, Finished;
    LeftAlone(s, nodes);
    var seen := WithTouch(s, UNINSTALL);
    OtherTaskSameCopy(s, "", "");
    SameCopy(s, seen, nodes);
    var started := WithTask(seen, UNINSTALL, StageName(k), TASK_STARTED);
    OtherTaskSameCopy(seen, StageName(k), TASK_STARTED);
    SameCopy(seen, started, nodes);
    var r := RunStage(started, k);
    StageApart(started, k);
    KeptApart(started, r.s, nodes);
    var done := WithTask(r.s, UNINSTALL, StageName(k), TASK_FINISHED);
    OtherTaskSameCopy(r.s, StageName(k), TASK_FINISHED);
    SameCopy(r.s, done, nodes);
  }

  lemma {:induction false} StagesKept(s: Sys, k: nat, nodes: set<string>)
    requires Kept(s, nodes)
    ensures Keeps(s, RunStages(s, k).s, nodes)
    decreases STAGES - k
  {
    hide StageTurn, Kept, InStep;
    if k < STAGES {
      var one := StageTurn(s, k);
      TurnKept(s, k, nodes);
      if one.flow == OK { StagesKept(one.s, k + 1, nodes); }
    }
  }

  lemma TakingDownKept(s: Sys, nodes: set<string>)
    requires Kept(s, nodes)
    ensures Keeps(s, TakeDown(s).s, nodes)
  {
    hide RunStages, Kept, InStep, CollectTasks;
    StagesKept(s, 0, nodes);
    var r := RunStages(s, 0).s;
    OtherTaskSameCopy(r, ACTION_COMPLETE, TASK_FINISHED);
    SameStatusSameCopy(WithTask(r, UNINSTALL, ACTION_COMPLETE, TASK_FINISHED), SwitchedOff(r));
    SameCopy(r, SwitchedOff(r), nodes);
  }

  lemma SameStatusSameCopy(s: Sys, t: Sys)
    requires s.cr.status.actions == t.cr.status.actions
    ensures CollectTasks(s.cr) == CollectTasks(t.cr)
  {
  }

  lemma DeletingKept(s: Sys, nodes: set<string>)
    requires Kept(s, nodes)
    ensures Keeps(s, BeforeDeleting(s).s, nodes)
  {
    hide AllowedToDelete, TakeDown, PushCr, NoteProgress, Kept, InStep, Apart, CollectTasks;
    LeftAlone(s, nodes);
    var allowed := AllowedToDelete(s).s;
    VolumesApart(s);
    KeptApart(s, allowed, nodes);
    var down := TakeDown(allowed);
    TakingDownKept(allowed, nodes);
    var noted := Uninstalls(down.s);
    SameStatusSameCopy(down.s, noted);
    SameCopy(down.s, noted, nodes);
    if down.flow.Return? { NotingKept(noted, down.flow.result, nodes); }
    var without := WithFinalizers(down.s, RemoveString(down.s.cr.finalizers, CLUSTER_FINALIZER));
    SameStatusSameCopy(down.s, without);
    SameCopy(down.s, without, nodes);
    UpdatingKept(without, nodes);
  }

  lemma FinalizingKept(s: Sys, nodes: set<string>)
    requires Kept(s, nodes)
    ensures Keeps(s, HandleFinalizer(s).s, nodes)
  {
    hide BeforeDeleting, PushCr, Kept, InStep, CollectTasks;
    DeletingKept(s, nodes);
    var with_ := WithFinalizers(s, s.cr.finalizers + [CLUSTER_FINALIZER]);
    SameStatusSameCopy(s, with_);
    SameCopy(s, with_, nodes);
    UpdatingKept(with_, nodes);
  }

  // ---- the action itself -------------------------------------------------------------------------

  lemma ListingTells(s: Sys, key: string)
    requires NodesStay(s.ticks)
    ensures var r := NodesWithLabel(s, key);
      && NodesStay(r.s.ticks) && r.s.w.nodes == s.w.nodes && (r.flow == OK ==> r.nodes == Labelled(s.w.nodes, key))
  {
    hide Call;
    NodesAfterCall(s, ListNodes(key));
    ListNodesReplies(s, key);
    ListingAnswers(s, key);
  }

  lemma ListingAnswers(s: Sys, key: string)
    requires NodesStay(s.ticks)
    ensures var a := Call(s, ListNodes(key)); a.reply.NodesAre? ==> a.reply.names == Labelled(s.w.nodes, key)
  {
    hide EnvRun;
    if s.ticks != [] {
      OthersAndNodes(s.w, s.ticks[0].steps);
      assert forall j :: 0 <= j < |s.ticks[0].steps| ==> !s.ticks[0].steps[j].NodesBecome?;
    }
  }

  lemma VisitFindsNodes(s: Sys, nodes: set<string>)
    requires Fixed(s, nodes)
    ensures FindsNodes(s, COLLECT, nodes)
  {
    hide StartCollectors, NodesWithLabel, IsLogsJob, Labelled;
    CollectorsAccount(s, COLLECT);
    var started := StartCollectors(s, COLLECT).s;
    ListingTells(started, CLIENT_LABEL);
    var clients := NodesWithLabel(started, CLIENT_LABEL).s;
    ListingTells(clients, TARGET_LABEL);
    var targets := NodesWithLabel(clients, TARGET_LABEL).s;
    ListingTells(targets, MGMT_LABEL);
  }

  lemma CollectFollows(s: Sys, action: string)
    requires JobsLeftAlone(s.ticks)
    ensures Follows(s, Collect(s, action).r.s) && JobsLeftAlone(Collect(s, action).r.s.ticks)
  {
    hide StartCollectors, LogNodes, Collect, DeleteOf, CreateOf, WaitOf, ListsNodes, Follows, JobsLeftAlone, LogsJobs, Finished;
    CollectIsItsStages(s, action);
    CollectorsAccount(s, action);
    var started := StartCollectors(s, action).s;
    var listed := LogNodes(started).s;
    ListingFollows(started);
    FollowsOn(s, started, listed);
    if ListsNodes(s, action) {
      StagesOfVisit(s, action);
      var names := Names(NodeList(s, action));
      TookFollows(listed, CreateOf(s, action), action, COLLECT_LOGS, JobNames(names), {});
      FollowsOn(s, listed, CreateOf(s, action).s);
      TookFollows(CreateOf(s, action).s, WaitOf(s, action), action, WAIT_FOR_JOBS, {}, {});
      FollowsOn(s, CreateOf(s, action).s, WaitOf(s, action).s);
      TookFollows(WaitOf(s, action).s, DeleteOf(s, action), action, DELETE_JOBS, {}, AllJobs(names));
      FollowsOn(s, WaitOf(s, action).s, DeleteOf(s, action).s);
      SameWorldFollows(s, DeleteOf(s, action).s, WithTask(DeleteOf(s, action).s, action, ACTION_COMPLETE, TASK_FINISHED));
    }
  }

  lemma FollowsOn(r: Sys, s: Sys, t: Sys)
    requires Follows(r, s) && Follows(s, t)
    ensures Follows(r, t)
  {
  }

  lemma SameWorldFollows(s: Sys, t: Sys, u: Sys)
    requires Follows(s, t) && u == t.(cr := u.cr)
    ensures Follows(s, u) && (JobsLeftAlone(t.ticks) ==> JobsLeftAlone(u.ticks))
  {
  }

  lemma TookFollows(s: Sys, r: Ran, action: string, task: string, come: set<string>, gone: set<string>)
    requires StageTook(s, r, action, task, come, gone)
    ensures Follows(s, r.s) && JobsLeftAlone(r.s.ticks)
  {
  }

  lemma ListingFollows(s: Sys)
    requires JobsLeftAlone(s.ticks)
    ensures Follows(s, LogNodes(s).s) && JobsLeftAlone(LogNodes(s).s.ticks)
  {
    hide LogNodes;
    ListingIsStep(s);
  }

  /** Tasks that were recorded earlier are true as well, if they are in order. */
  lemma EarlierLedger(earlier: TaskMap, tasks: TaskMap, w: World, nodes: set<string>)
    requires Ledger(tasks, w, 0, nodes) && NothingUndone(earlier, tasks) && InStageOrder(earlier)
    ensures Ledger(earlier, w, 0, nodes)
  {
  }


  /** The action asks to be taken off the list only with every stage finished and none of its jobs left. */
  ghost predicate Clean(c: RanAction, nodes: set<string>)
  {
    c.remove ==>
      && c.r.s.w.jobs.Keys !! AllJobs(nodes) && (forall t :: t in ALL_TASKS ==> Finished(MyTasks(c.r.s, COLLECT), t))
  }

  lemma CollectingKept(s: Sys, nodes: set<string>)
    requires Kept(s, nodes) && InStep(s)
    ensures Kept(Collect(s, COLLECT).r.s, nodes) && InStep(Collect(s, COLLECT).r.s)
    ensures Clean(Collect(s, COLLECT), nodes)
  {
    hide Collect, JobsLeftAlone, DoneSince, Finished;
    var t := Collect(s, COLLECT).r.s;
    VisitFindsNodes(s, nodes);
    VisitKeepsLedger(s, COLLECT, 0, nodes);
    CollectFollows(s, COLLECT);
    if t.w.cr.Some? {
      var stored := CollectTasks(t.w.cr.value);
      assert stored == CollectTasks(s.w.cr.value);
      EarlierLedger(stored, CollectTasks(t.cr), t.w, nodes);
    }
  }

  // ---- the cycle ---------------------------------------------------------------------------------

  lemma ActionKept(s: Sys, action: Action, index: nat, nodes: set<string>)
    requires Kept(s, nodes) && InStep(s)
    ensures var t := TurnOf(s, action, index).s; Kept(t, nodes) && InStep(t)
    ensures Clean(TakeAction(s, action), nodes)
  {
    hide Collect, PushCr, PushStatus, Kept, InStep, CollectTasks;
    if action.name == COLLECT { CollectingKept(s, nodes); }
    var a := TakeAction(s, action);
    var shorter := ActionRemoved(a.r.s.cr.spec.actions, index);
    var kept := if a.remove then Retire(a.r.s, index) else Ran(a.r.s, OK);
    if a.remove && shorter.Some? {
      var t := a.r.s.(cr := a.r.s.cr.(spec := a.r.s.cr.spec.(actions := shorter.value)));
      SameStatusSameCopy(a.r.s, t);
      SameCopy(a.r.s, t, nodes);
      UpdatingKept(t, nodes);
    }
    PushingKept(kept.s, nodes);
  }

  /** In every turn of the pass, the write that drops the action is made from a clean state. */
  ghost predicate CleanPass(s: Sys, pending: seq<Action>, index: nat, nodes: set<string>)
    decreases |pending|
  {
    pending != [] ==>
      && Clean(TakeAction(s, pending[0]), nodes)
      && (TurnOf(s, pending[0], index).flow == OK ==>
            CleanPass(TurnOf(s, pending[0], index).s, pending[1..], index + 1, nodes))
  }

  lemma {:induction false} ActionsKept(s: Sys, pending: seq<Action>, index: nat, nodes: set<string>)
    requires Kept(s, nodes) && InStep(s)
    ensures Kept(HandleActions(s, pending, index).s, nodes) && CleanPass(s, pending, index, nodes)
    decreases |pending|
  {
    hide TurnOf, TakeAction, Clean, Kept, InStep;
    if pending != [] {
      var one := TurnOf(s, pending[0], index);
      ActionKept(s, pending[0], index, nodes);
      if one.flow == OK { ActionsKept(one.s, pending[1..], index + 1, nodes); }
    }
  }

  /** Dropping the status of an action that is no longer requested starts its account anew. */
  lemma DroppingKept(s: Sys, nodes: set<string>)
    requires Kept(s, nodes)
    ensures var r := DropStale(s); Kept(r.s, nodes) && (r.flow == OK ==> r.s == s)
  {
    hide PushStatus;
    var t := WithStatus(s, s.cr.status.(actions := LiveStatuses(s.cr)));
    assert CollectTasks(t.cr) == CollectTasks(s.cr) || CollectTasks(t.cr) == map[];
    assert Ledger(CollectTasks(t.cr), t.w, 0, nodes);
    PushingKept(t, nodes);
  }

  lemma RunningActionsKept(s: Sys, nodes: set<string>)
    requires Kept(s, nodes) && InStep(s)
    ensures Kept(Actions(s).s, nodes)
  {
    hide DropStale, HandleActions, Succeed, Complain, Kept, InStep;
    var swept := DropStale(s);
    DroppingKept(s, nodes);
    CycleSafety.DropStaleFlow(s);
    ReportingKept(swept.s, Unexpected, if swept.flow.Killed? then DO_NOT_REQUEUE else swept.flow.result, nodes);
    if swept.flow == OK {
      var acted := HandleActions(s, s.cr.spec.actions, 0);
      ActionsKept(s, s.cr.spec.actions, 0, nodes);
      if acted.flow.Return? {
        ReportingKept(acted.s, if acted.flow.err.Some? then acted.flow.err.value else Unexpected, acted.flow.result, nodes);
        ReportingKept(acted.s, Unexpected, DO_NOT_REQUEUE, nodes);
      }
    }
  }

  lemma ConvergingKept(s: Sys, nodes: set<string>)
    requires Kept(s, nodes) && InStep(s)
    ensures Kept(Converge(s).s, nodes)
  {
    hide ReconcileAll, Actions, Complain, Kept, InStep, Apart;
    LeftAlone(s, nodes);
    var all := ReconcileAll(s);
    ComponentsApart(s);
    KeptApart(s, all.s, nodes);
    RunningActionsKept(all.s, nodes);
    if all.flow.Return? && all.flow.err.Some? { ReportingKept(all.s, all.flow.err.value, all.flow.result, nodes); }
  }

  lemma HandlingKept(s: Sys, nodes: set<string>)
    requires Kept(s, nodes) && InStep(s)
    ensures Kept(Handle(s).s, nodes)
  {
    hide EnsureServiceAccount, HandleFinalizer, Converge, Complain, Succeed, Kept, InStep, Apart;
    LeftAlone(s, nodes);
    ReportingKept(s, Invalid, Requeue(0), nodes);
    var account := EnsureServiceAccount(s);
    AccountApart(s);
    KeptApart(s, account.s, nodes);
    if account.flow.Return? && account.flow.err.Some? { ReportingKept(account.s, account.flow.err.value, Requeue(0), nodes); }
    var fin := HandleFinalizer(account.s);
    FinalizingKept(account.s, nodes);
    ConvergingKept(fin.s, nodes);
    if fin.flow.Return? {
      ReportingKept(fin.s, Unexpected, fin.flow.result, nodes);
      if fin.flow.err.Some? { ReportingKept(fin.s, fin.flow.err.value, Requeue(0), nodes); }
    }
  }

  lemma ReconcilingKept(s: Sys, nodes: set<string>)
    requires Kept(s, nodes)
    ensures Kept(Reconcile(s).s, nodes)
  {
    hide Call, Handle, Apart, Ledger, NothingUndone;
    var got := Call(s, GetCr);
    CallApart(s, GetCr);
    KeptApart(s, got.s, nodes);
    if got.reply.CrIs? {
      Protocol.StoredCopyExists(s);
      NothingUndoneHere(CollectTasks(got.reply.cr));
      HandlingKept(got.s.(cr := got.reply.cr), nodes);
    }
  }

  // ---- runs --------------------------------------------------------------------------------------

  /** What the account needs of a cycle. */
  ghost predicate FixedCycle(c: Cycle)
  {
    JobsLeftAlone(c.ticks) && NodesStay(c.ticks) && Orderly(c.order)
  }

  /** What holds between cycles. */
  ghost predicate StoredKept(w: World, nodes: set<string>)
  {
    && LogNames(w) == nodes && DeletedAfterDone(w.log, 0, AllJobs(nodes))
    && (w.cr.Some? ==> Ledger(CollectTasks(w.cr.value), w, 0, nodes))
  }

  lemma CycleKept(w: World, c: Cycle, nodes: set<string>)
    requires StoredKept(w, nodes) && FixedCycle(c)
    ensures StoredKept(AfterCycle(w, c), nodes)
  {
    hide Reconcile, DeletedAfterDone;
    assert CollectTasks(NO_CR) == map[];
    ReconcilingKept(Start(w, c), nodes);
  }

  lemma {:induction false} CyclesKept(w: World, cycles: seq<Cycle>, nodes: set<string>)
    requires StoredKept(w, nodes) && forall c :: c in cycles ==> FixedCycle(c)
    ensures StoredKept(AfterCycles(w, cycles), nodes)
    decreases |cycles|
  {
    hide StoredKept, FixedCycle, AfterCycle;
    if cycles != [] {
      CycleKept(w, cycles[0], nodes);
      CyclesKept(AfterCycle(w, cycles[0]), cycles[1..], nodes);
    }
  }

  /** On every run with a fixed set of labelled nodes, cycles cut short anywhere, actions requested and withdrawn at any
      time: no job of the action is asked to go unless it was seen done since it was last asked for; and a resource that
      records the deletion as finished has all five stages in order and none of the jobs left. */
  lemma NoJobGoesUnfinished(w: World, cycles: seq<Cycle>)
    requires w.log == [] && (w.cr.Some? ==> CollectTasks(w.cr.value) == map[])
    requires forall c :: c in cycles ==> FixedCycle(c)
    ensures var v := AfterCycles(w, cycles); var jobs := AllJobs(LogNames(w));
      && (forall i :: 0 <= i < |v.log| && v.log[i].request.DeleteJob? && v.log[i].request.job in jobs ==>
            DoneSince(v.log[..i], 0, v.log[i].request.job))
      && (v.cr.Some? ==> InStageOrder(CollectTasks(v.cr.value)))
      && (v.cr.Some? && Finished(CollectTasks(v.cr.value), DELETE_JOBS) ==> v.jobs.Keys !! jobs)
  {
    hide AfterCycles, FixedCycle;
    CyclesKept(w, cycles, LogNames(w));
  }
}
