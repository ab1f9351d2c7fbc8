/** Whole reconcile cycles, and runs of them, keep the invariant; a cycle that uninstalls brings nothing back. */
module CycleSafety {
  import opened Basics
  import opened Kube
  import opened Objects
  import opened Jobs
  import opened Tasks
  import opened StatusUpdater
  import opened Management
  import opened Uninstall
  import opened Finalizer
  import opened CollectLogs
  import opened Reconciler
  import opened Safety
  import opened StageSafety
  import opened Protocol

  // ---- deploying -------------------------------------------------------------------------------

  /** Requests of a cycle that may deploy. */
  ghost predicate Deploys(s: Sys, t: Sys)
  {
    Inv(t) && MayDeploy(t) && t.cr == s.cr && Forward(s.w, t.w)
  }

  lemma DeploysTransitive(r: Sys, s: Sys, t: Sys)
    requires Deploys(r, s) && Deploys(s, t)
    ensures Deploys(r, t)
  {
  }

  lemma DeploysReflexive(s: Sys)
    requires Inv(s) && MayDeploy(s)
    ensures Deploys(s, s)
  {
  }

  lemma DeployCall(s: Sys, q: Request)
    requires Inv(s) && MayDeploy(s) && !q.UpdateCr? && !q.UpdateStatus?
    ensures Deploys(s, Call(s, q).s)
  {
    CallKeeps(s, q);
  }

  lemma {:induction false} RestartDeploys(s: Sys, key: Key, attempts: nat)
    requires Inv(s) && MayDeploy(s)
    ensures Deploys(s, Restart(s, key, attempts).s)
    decreases attempts
  {
    var found := Call(s, GetObject(key));
    DeployCall(s, GetObject(key));
    if found.reply.ObjectIs? {
      var fields := Annotated(found.reply.stored.fields, TimeText(found.s.w.now));
      var q := UpdateObject(Manifest(key, fields), Some(found.reply.stored.version));
      var written := Call(found.s, q);
      DeployCall(found.s, q);
      DeploysTransitive(s, found.s, written.s);
      if written.reply == Fails(Conflict) && attempts > 1 {
        RestartDeploys(written.s, key, attempts - 1);
        DeploysTransitive(s, written.s, Restart(written.s, key, attempts - 1).s);
      }
    }
  }

  lemma ApplyDeploys(s: Sys, key: Key, plan: Plan)
    requires Inv(s) && MayDeploy(s)
    ensures Deploys(s, Apply(s, key, plan).s)
  {
    match plan
    case Leave => DeploysReflexive(s);
    case Write(fields) => DeployCall(s, UpdateObject(Manifest(key, fields), None));
    case WriteAndRestart(fields) =>
      var q := UpdateObject(Manifest(key, fields), None);
      DeployCall(s, q);
      var t := Call(s, q).s;
      RestartDeploys(t, MGMT_STATEFUL_SET, RESTART_ATTEMPTS);
      DeploysTransitive(s, t, Restart(t, MGMT_STATEFUL_SET, RESTART_ATTEMPTS).s);
  }

  lemma EnsureObjectDeploys(s: Sys, component: Option<Component>, m: Manifest)
    requires Inv(s) && MayDeploy(s)
    ensures Deploys(s, EnsureObject(s, component, m).s)
  {
    hide Restart, Apply, StoredInv, CopyInv, InOrder, Shipped, Call, Forward;
    DeploysReflexive(s);
    var wanted := Initialised(s.cr, component, m);
    if wanted.Some? {
      var found := Call(s, GetObject(m.key));
      DeployCall(s, GetObject(m.key));
      if found.reply == Fails(NotFound) {
        var q := CreateObject(wanted.value);
        DeployCall(found.s, q);
        DeploysTransitive(s, found.s, Call(found.s, q).s);
      } else if found.reply.ObjectIs? {
        var plan := PlanFor(s.cr, component, wanted.value, found.reply.stored.fields);
        ApplyDeploys(found.s, m.key, plan);
        DeploysTransitive(s, found.s, Apply(found.s, m.key, plan).s);
      }
    }
  }

  lemma ObjectDeploys(s: Sys, component: Option<Component>, m: Manifest, remove: bool)
    requires Inv(s) && MayDeploy(s)
    ensures Deploys(s, ReconcileObject(s, component, m, remove).s)
  {
    hide RemoveObject, EnsureObject, StoredInv, CopyInv, InOrder, Shipped, Forward;
    if remove {
      RemoveObjectIsQuiet(s, m.key);
    } else {
      EnsureObjectDeploys(s, component, m);
    }
  }

  lemma {:induction false} ManifestsDeploy(s: Sys, component: Component, ms: seq<Manifest>, remove: bool, first: Option<Error>)
    requires Inv(s) && MayDeploy(s)
    ensures Deploys(s, ReconcileManifests(s, component, ms, remove, first).s)
    decreases |ms|
  {
    hide ReconcileObject, StoredInv, CopyInv, InOrder, Shipped, Forward;
    DeploysReflexive(s);
    if ms != [] {
      var one := ReconcileObject(s, Some(component), ms[0], remove);
      ObjectDeploys(s, Some(component), ms[0], remove);
      if !one.flow.Killed? {
        var error := FirstError(first, one.flow);
        ManifestsDeploy(one.s, component, ms[1..], remove, error);
        DeploysTransitive(s, one.s, ReconcileManifests(one.s, component, ms[1..], remove, error).s);
      }
    }
  }

  lemma {:induction false} DirDeploys(s: Sys, component: Component, files: seq<YamlFile>, remove: bool)
    requires Inv(s) && MayDeploy(s)
    ensures Deploys(s, ReconcileDir(s, component, files, remove).s)
    decreases |files|
  {
    hide ReconcileManifests, StoredInv, CopyInv, InOrder, Shipped, Forward;
    DeploysReflexive(s);
    if files != [] {
      var one := ReconcileFile(s, component, files[0], remove);
      if files[0].Readable? { ManifestsDeploy(s, component, files[0].manifests, remove, None); }
      if one.flow == OK {
        DirDeploys(one.s, component, files[1..], remove);
        DeploysTransitive(s, one.s, ReconcileDir(one.s, component, files[1..], remove).s);
      }
    }
  }

  lemma HandleDbDeploys(s: Sys)
    requires Inv(s) && MayDeploy(s)
    ensures Deploys(s, HandleDb(s).s)
  {
    hide Restart, RemoveJob, StoredInv, CopyInv, InOrder, Shipped, Forward, Call;
    var found := Call(s, FindSettings);
    DeployCall(s, FindSettings);
    if found.reply.SettingsAre? {
      var swept := RemoveJob(found.s, INIT_DB_JOB).s;
      RemoveJobIsQuiet(found.s, INIT_DB_JOB);
      DeploysTransitive(s, found.s, swept);
      var q := UpdateSettings(WantedSettings(swept.cr.spec));
      var written := Call(swept, q).s;
      DeployCall(swept, q);
      DeploysTransitive(s, swept, written);
      RestartDeploys(written, MGMT_STATEFUL_SET, RESTART_ATTEMPTS);
      DeploysTransitive(s, written, Restart(written, MGMT_STATEFUL_SET, RESTART_ATTEMPTS).s);
    }
  }

  lemma AfterDbDeploys(s: Sys, handled: Ran)
    requires Deploys(s, handled.s)
    ensures Deploys(s, AfterDb(handled).s)
  {
    hide ReconcileDir, Call, StoredInv, CopyInv, InOrder, Shipped, Forward;
    var t := handled.s;
    DeployCall(t, CreateJob(INIT_DB_JOB));
    DeploysTransitive(s, t, StartJob(t, INIT_DB_JOB).s);
    DirDeploys(t, t.w.res.mgmtComponent, t.w.res.mgmt, false);
    DeploysTransitive(s, t, ReconcileDir(t, t.w.res.mgmtComponent, t.w.res.mgmt, false).s);
  }

  lemma ReconcileManagementDeploys(s: Sys)
    requires Inv(s) && MayDeploy(s)
    ensures Deploys(s, ReconcileManagement(s).s)
  {
    hide ReconcileDir, HandleDb, AfterDb, StoredInv, CopyInv, InOrder, Shipped, Forward;
    var res := s.w.res;
    var mongo := ReconcileDir(s, res.mgmtComponent, res.mongo, !DeployMongo(s.cr.spec)).s;
    DirDeploys(s, res.mgmtComponent, res.mongo, !DeployMongo(s.cr.spec));
    DirDeploys(mongo, res.mgmtComponent, res.mgmt, true);
    DeploysTransitive(s, mongo, ReconcileDir(mongo, res.mgmtComponent, res.mgmt, true).s);
    HandleDbDeploys(mongo);
    DeploysTransitive(s, mongo, HandleDb(mongo).s);
    AfterDbDeploys(s, HandleDb(mongo));
  }

  lemma ReconcileAllDeploys(s: Sys)
    requires Inv(s) && MayDeploy(s)
    ensures Deploys(s, ReconcileAll(s).s)
  {
    hide ReconcileDir, ReconcileManagement, StoredInv, CopyInv, InOrder, Shipped, Forward;
    var mgmt := ReconcileManagement(s).s;
    ReconcileManagementDeploys(s);
    var core := ReconcileCore(mgmt).s;
    DirDeploys(mgmt, mgmt.w.res.coreComponent, mgmt.w.res.core, mgmt.cr.spec.coreDisabled);
    DeploysTransitive(s, mgmt, core);
    DirDeploys(core, core.w.res.csiComponent, core.w.res.csi, core.cr.spec.csiDisabled);
    DeploysTransitive(s, core, ReconcileCsi(core).s);
  }

  // ---- converging with everything switched off -------------------------------------------------

  lemma DirIsQuietlyRemoved(s: Sys, component: Component, files: seq<YamlFile>)
    requires Inv(s) && !Uninstalling(s.cr) && forall k :: Lists(files, k) ==> Managed(s.w.res, k)
    ensures Quiet(s, ReconcileDir(s, component, files, true).s)
  {
    DirIsRemoved(s, component, files);
  }

  lemma DisabledConvergesQuietly(s: Sys)
    requires Inv(s) && !Uninstalling(s.cr) && AllDisabled(s.cr.spec)
    ensures Quiet(s, ReconcileAll(s).s)
  {
    hide ReconcileDir, StoredInv, CopyInv, InOrder, Shipped, Calmer;
    var res := s.w.res;
    DirIsQuietlyRemoved(s, res.mgmtComponent, res.mongo);
    var mongo := ReconcileDir(s, res.mgmtComponent, res.mongo, true).s;
    SameResources(s, mongo);
    DirIsQuietlyRemoved(mongo, res.mgmtComponent, res.mgmt);
    var mgmt := ReconcileManagement(s).s;
    QuietTransitive(s, mongo, ReconcileDir(mongo, res.mgmtComponent, res.mgmt, true).s);
    SameResources(s, mgmt);
    DirIsQuietlyRemoved(mgmt, res.coreComponent, res.core);
    var core := ReconcileCore(mgmt).s;
    QuietTransitive(s, mgmt, core);
    SameResources(s, core);
    DirIsQuietlyRemoved(core, res.csiComponent, res.csi);
    QuietTransitive(s, core, ReconcileCsi(core).s);
  }

  // ---- actions ---------------------------------------------------------------------------------

  lemma DropStaleKeeps(s: Sys)
    requires Inv(s) && MayDeploy(s)
    ensures var r := DropStale(s); Inv(r.s) && Calmer(s.w, r.s.w) && (r.flow == OK ==> r.s == s)
  {
    QuietReflexive(s);
    var t := WithStatus(s, s.cr.status.(actions := LiveStatuses(s.cr)));
    PushStatusKeeps(t);
  }

  /** Quiet, except that the copy's status of other actions changed. */
  ghost predicate Works(s: Sys, t: Sys)
  {
    && Inv(t) && Calmer(s.w, t.w)
    && t.cr == s.cr.(status := t.cr.status) && UninstallTasks(t.cr) == UninstallTasks(s.cr)
  }

  lemma WorksTransitive(r: Sys, s: Sys, t: Sys)
    requires Works(r, s) && Works(s, t)
    ensures Works(r, t)
  {
    CalmerTransitive(r.w, s.w, t.w);
  }

  lemma TouchWorks(s: Sys, action: string)
    requires Inv(s)
    ensures Works(s, WithTouch(s, action))
  {
    QuietReflexive(s);
    SameTasksKeep(s, WithTouch(s, action));
  }

  lemma TaskWorks(s: Sys, action: string, task: string, value: string)
    requires Inv(s) && action != UNINSTALL
    ensures Works(s, WithTask(s, action, task, value))
  {
    QuietReflexive(s);
    SameTasksKeep(s, WithTask(s, action, task, value));
  }

  /** A stage of the action: mark it started, do quiet work, mark it finished. */
  lemma StagedWorks(s: Sys, action: string, task: string, started: Sys, body: Ran)
    requires Inv(s) && action != UNINSTALL
    requires started == WithTask(WithTouch(s, action), action, task, TASK_STARTED) && Quiet(started, body.s)
    ensures Works(s, body.s) && Works(s, WithTask(body.s, action, task, TASK_FINISHED))
  {
    hide StoredInv, CopyInv, InOrder, Shipped, Calmer;
    var seen := WithTouch(s, action);
    TouchWorks(s, action);
    TaskWorks(seen, action, task, TASK_STARTED);
    WorksTransitive(s, seen, started);
    WorksTransitive(s, started, body.s);
    TaskWorks(body.s, action, task, TASK_FINISHED);
    WorksTransitive(s, body.s, WithTask(body.s, action, task, TASK_FINISHED));
  }

  lemma CollectJobIsNoOther(node: string)
    ensures {LogsJob(node), DB_JOB, CONFIG_MAPS_JOB} !! {CLEAR_DB_JOB, INIT_DB_JOB}
  {
    assert LogsJob(node)[0] == 'c' && DB_JOB[0] == 'c' && CONFIG_MAPS_JOB[0] == 'c';
    assert CLEAR_DB_JOB[0] == 'n' && INIT_DB_JOB[0] == 'm';
  }

  lemma JobStageWorks(s: Sys, action: string, task: string, job: string)
    requires Inv(s) && action != UNINSTALL && job != CLEAR_DB_JOB && job != INIT_DB_JOB
    ensures Works(s, JobStage(s, action, task, job).s)
  {
    hide StoredInv, CopyInv, InOrder, Shipped, Calmer, StartJob;
    TouchWorks(s, action);
    var started := WithTask(WithTouch(s, action), action, task, TASK_STARTED);
    TaskWorks(WithTouch(s, action), action, task, TASK_STARTED);
    StartJobIsQuiet(started, job);
    StagedWorks(s, action, task, started, StartJob(started, job));
  }

  lemma {:induction false} LogJobsAreQuiet(s: Sys, nodes: seq<string>)
    requires Inv(s)
    ensures Quiet(s, StartLogJobs(s, nodes).s)
    ensures Quiet(s, AwaitLogJobs(s, nodes).s)
    ensures Quiet(s, DeleteLogJobs(s, nodes).s)
    decreases |nodes|
  {
    hide StoredInv, CopyInv, InOrder, Shipped, Calmer, StartJob, WaitForJob, RemoveJob;
    QuietReflexive(s);
    if nodes != [] {
      var job := LogsJob(nodes[0]);
      CollectJobIsNoOther(nodes[0]);
      StartJobIsQuiet(s, job);
      var started := StartJob(s, job).s;
      LogJobsAreQuiet(started, nodes[1..]);
      QuietTransitive(s, started, StartLogJobs(started, nodes[1..]).s);
      WaitForJobIsQuiet(s, job);
      var waited := WaitForJob(s, job).s;
      LogJobsAreQuiet(waited, nodes[1..]);
      QuietTransitive(s, waited, AwaitLogJobs(waited, nodes[1..]).s);
      RemoveJobIsQuiet(s, job);
      var gone := RemoveJob(s, job).s;
      LogJobsAreQuiet(gone, nodes[1..]);
      QuietTransitive(s, gone, DeleteLogJobs(gone, nodes[1..]).s);
    }
  }

  lemma AwaitJobsIsQuiet(s: Sys, nodes: seq<string>)
    requires Inv(s)
    ensures Quiet(s, AwaitJobs(s, nodes).s)
  {
    hide StoredInv, CopyInv, InOrder, Shipped, Calmer, WaitForJob, AwaitLogJobs;
    var db := WaitForJob(s, DB_JOB).s;
    WaitForJobIsQuiet(s, DB_JOB);
    var maps := WaitForJob(db, CONFIG_MAPS_JOB).s;
    WaitForJobIsQuiet(db, CONFIG_MAPS_JOB);
    QuietTransitive(s, db, maps);
    LogJobsAreQuiet(maps, nodes);
    QuietTransitive(s, maps, AwaitLogJobs(maps, nodes).s);
  }

  lemma DeleteJobsIsQuiet(s: Sys, nodes: seq<string>)
    requires Inv(s)
    ensures Quiet(s, DeleteJobs(s, nodes).s)
  {
    hide StoredInv, CopyInv, InOrder, Shipped, Calmer, RemoveJob, DeleteLogJobs;
    var db := RemoveJob(s, DB_JOB).s;
    RemoveJobIsQuiet(s, DB_JOB);
    var maps := RemoveJob(db, CONFIG_MAPS_JOB).s;
    RemoveJobIsQuiet(db, CONFIG_MAPS_JOB);
    QuietTransitive(s, db, maps);
    LogJobsAreQuiet(maps, nodes);
    QuietTransitive(s, maps, DeleteLogJobs(maps, nodes).s);
  }

  lemma NodeStagesWork(s: Sys, action: string, nodes: seq<string>)
    requires Inv(s) && action != UNINSTALL
    ensures Works(s, CreateStage(s, action, nodes).s)
    ensures Works(s, WaitStage(s, action, nodes).s)
    ensures Works(s, DeleteStage(s, action, nodes).s)
  {
    hide StoredInv, CopyInv, InOrder, Shipped, Calmer, StartLogJobs, AwaitJobs, DeleteJobs;
    TouchWorks(s, action);
    var seen := WithTouch(s, action);
    var create := WithTask(seen, action, COLLECT_LOGS, TASK_STARTED);
    TaskWorks(seen, action, COLLECT_LOGS, TASK_STARTED);
    LogJobsAreQuiet(create, nodes);
    StagedWorks(s, action, COLLECT_LOGS, create, StartLogJobs(create, nodes));
    var wait := WithTask(seen, action, WAIT_FOR_JOBS, TASK_STARTED);
    TaskWorks(seen, action, WAIT_FOR_JOBS, TASK_STARTED);
    AwaitJobsIsQuiet(wait, nodes);
    StagedWorks(s, action, WAIT_FOR_JOBS, wait, AwaitJobs(wait, nodes));
    var delete := WithTask(seen, action, DELETE_JOBS, TASK_STARTED);
    TaskWorks(seen, action, DELETE_JOBS, TASK_STARTED);
    DeleteJobsIsQuiet(delete, nodes);
    StagedWorks(s, action, DELETE_JOBS, delete, DeleteJobs(delete, nodes));
  }

  lemma CollectOnNodesWorks(s: Sys, action: string)
    requires Inv(s) && action != UNINSTALL
    ensures Works(s, CollectOnNodes(s, action).s)
  {
    hide StoredInv, CopyInv, InOrder, Shipped, Calmer, ClusterNodes, NodesWithLabel, CreateStage, WaitStage, DeleteStage;
    var cluster := ClusterNodes(s).s;
    ClusterNodesIsQuiet(s);
    NodesWithLabelIsQuiet(cluster, MGMT_LABEL);
    QuietTransitive(s, cluster, NodesWithLabel(cluster, MGMT_LABEL).s);
    var listed := LogNodes(s);
    var nodes := s.order(listed.nodes);
    NodeStagesWork(listed.s, action, nodes);
    var created := CreateStage(listed.s, action, nodes).s;
    WorksTransitive(s, listed.s, created);
    NodeStagesWork(created, action, nodes);
    var waited := WaitStage(created, action, nodes).s;
    WorksTransitive(s, created, waited);
    NodeStagesWork(waited, action, nodes);
    WorksTransitive(s, waited, DeleteStage(waited, action, nodes).s);
  }

  lemma CollectWorks(s: Sys, action: string)
    requires Inv(s) && action != UNINSTALL
    ensures Works(s, Collect(s, action).r.s)
  {
    hide StoredInv, CopyInv, InOrder, Shipped, Calmer, JobStage, CollectOnNodes;
    CollectJobIsNoOther("");
    JobStageWorks(s, action, COLLECT_DB, DB_JOB);
    var db := JobStage(s, action, COLLECT_DB, DB_JOB).s;
    JobStageWorks(db, action, COLLECT_CONFIG_MAPS, CONFIG_MAPS_JOB);
    WorksTransitive(s, db, JobStage(db, action, COLLECT_CONFIG_MAPS, CONFIG_MAPS_JOB).s);
    var started := StartCollectors(s, action).s;
    CollectOnNodesWorks(started, action);
    var r := CollectOnNodes(started, action).s;
    WorksTransitive(s, started, r);
    TaskWorks(r, action, ACTION_COMPLETE, TASK_FINISHED);
    WorksTransitive(s, r, WithTask(r, action, ACTION_COMPLETE, TASK_FINISHED));
  }

  lemma TurnKeeps(s: Sys, action: Action, index: nat)
    requires Inv(s) && !Uninstalling(s.cr)
    ensures var r := TurnOf(s, action, index);
      Inv(r.s) && Calmer(s.w, r.s.w) && (r.flow == OK ==> !Uninstalling(r.s.cr))
  {
    hide StoredInv, CopyInv, InOrder, Shipped, Calmer, Collect, PushCr, PushStatus;
    TouchWorks(s, action.name);
    QuietReflexive(s);
    if action.name == "collect-logs" { CollectWorks(s, action.name); }
    var a := TakeAction(s, action);
    var shorter := ActionRemoved(a.r.s.cr.spec.actions, index);
    var kept := if a.remove then Retire(a.r.s, index) else Ran(a.r.s, OK);
    if a.remove && shorter.Some? {
      var t := a.r.s.(cr := a.r.s.cr.(spec := a.r.s.cr.spec.(actions := shorter.value)));
      SpecOnly(a.r.s, t);
      PushCrKeeps(t);
      CalmerTransitive(s.w, t.w, PushCr(t).s.w);
    }
    PushStatusKeeps(kept.s);
    CalmerTransitive(s.w, kept.s.w, PushStatus(kept.s).s.w);
  }

  lemma SpecOnly(s: Sys, t: Sys)
    requires Inv(s) && t == s.(cr := s.cr.(spec := t.cr.spec))
    ensures Inv(t)
  {
    SameTasksKeep(s, t);
  }

  lemma {:induction false} HandleActionsKeeps(s: Sys, pending: seq<Action>, index: nat)
    requires Inv(s) && !Uninstalling(s.cr)
    ensures var r := HandleActions(s, pending, index); Inv(r.s) && Calmer(s.w, r.s.w)
    decreases |pending|
  {
    hide StoredInv, CopyInv, InOrder, Shipped, Calmer, TurnOf;
    QuietReflexive(s);
    if pending != [] {
      var one := TurnOf(s, pending[0], index);
      TurnKeeps(s, pending[0], index);
      if one.flow == OK {
        HandleActionsKeeps(one.s, pending[1..], index + 1);
        CalmerTransitive(s.w, one.s.w, HandleActions(one.s, pending[1..], index + 1).s.w);
      }
    }
  }

  lemma ActionsKeep(s: Sys)
    requires Inv(s) && MayDeploy(s)
    ensures var r := Actions(s); Inv(r.s) && Calmer(s.w, r.s.w)
  {
    hide StoredInv, CopyInv, InOrder, Shipped, Calmer, HandleActions, DropStale, Succeed, Complain;
    var swept := DropStale(s);
    DropStaleKeeps(s);
    if swept.flow.Killed? {
    } else if swept.flow.result.requeue {
      SucceedKeeps(swept.s, swept.flow.result);
      CalmerTransitive(s.w, swept.s.w, Succeed(swept.s, swept.flow.result).s.w);
    } else {
      DropStaleFlow(s);
      var acted := HandleActions(swept.s, swept.s.cr.spec.actions, 0);
      HandleActionsKeeps(swept.s, swept.s.cr.spec.actions, 0);
      if acted.flow.Killed? {
      } else if acted.flow.err.Some? {
        ComplainKeeps(acted.s, acted.flow.err.value, acted.flow.result);
        CalmerTransitive(s.w, acted.s.w, Complain(acted.s, acted.flow.err.value, acted.flow.result).s.w);
      } else {
        SucceedKeeps(acted.s, acted.flow.result);
        CalmerTransitive(s.w, acted.s.w, Succeed(acted.s, acted.flow.result).s.w);
        SucceedKeeps(acted.s, DO_NOT_REQUEUE);
        CalmerTransitive(s.w, acted.s.w, Succeed(acted.s, DO_NOT_REQUEUE).s.w);
      }
    }
  }

  lemma DropStaleFlow(s: Sys)
    ensures var flow := DropStale(s).flow; flow.Killed? || flow.result.requeue || flow == OK
  {
  }

  // ---- the cycle -------------------------------------------------------------------------------

  lemma EnsureUnmanagedIsQuiet(s: Sys, m: Manifest)
    requires Inv(s) && !Managed(s.w.res, m.key)
    ensures Quiet(s, EnsureObject(s, None, m).s)
  {
    hide StoredInv, CopyInv, InOrder, Shipped, Calmer, Call;
    var found := Call(s, GetObject(m.key));
    QuietCall(s, GetObject(m.key));
    SameResources(s, found.s);
    QuietCall(found.s, CreateObject(m));
    QuietTransitive(s, found.s, Call(found.s, CreateObject(m)).s);
  }

  lemma EnsureServiceAccountIsQuiet(s: Sys)
    requires Inv(s)
    ensures Quiet(s, EnsureServiceAccount(s).s)
  {
    hide StoredInv, CopyInv, InOrder, Calmer, EnsureObject;
    EnsureUnmanagedIsQuiet(s, SERVICE_ACCOUNT);
    var account := EnsureObject(s, None, SERVICE_ACCOUNT).s;
    EnsureUnmanagedIsQuiet(account, CLUSTER_ROLE);
    var role := EnsureObject(account, None, CLUSTER_ROLE).s;
    QuietTransitive(s, account, role);
    EnsureUnmanagedIsQuiet(role, ROLE_BINDING);
    QuietTransitive(s, role, EnsureObject(role, None, ROLE_BINDING).s);
  }

  lemma ReadStays(s: Sys, t: Sys)
    requires Inv(s) && ReadInThisCycle(s) && Quiet(s, t)
    ensures ReadInThisCycle(t)
  {
  }

  lemma ConvergeKeeps(s: Sys)
    requires Inv(s) && MayDeploy(s)
    ensures var r := Converge(s);
      Inv(r.s) && Forward(s.w, r.s.w) && (AllDisabled(s.cr.spec) ==> Calmer(s.w, r.s.w))
  {
    hide StoredInv, CopyInv, InOrder, Shipped, ReconcileAll, Actions, Complain;
    var all := ReconcileAll(s);
    ReconcileAllDeploys(s);
    if AllDisabled(s.cr.spec) { DisabledConvergesQuietly(s); }
    if all.flow.Killed? {
    } else if all.flow.result.requeue {
      if all.flow.err.Some? {
        ComplainKeeps(all.s, all.flow.err.value, all.flow.result);
        Onwards(s.w, all.s.w, Complain(all.s, all.flow.err.value, all.flow.result).s.w);
      }
    } else {
      ActionsKeep(all.s);
      Onwards(s.w, all.s.w, Actions(all.s).s.w);
    }
  }

  lemma Onwards(u: World, v: World, w: World)
    requires Forward(u, v) && Calmer(v, w)
    ensures Forward(u, w)
    ensures Calmer(u, v) ==> Calmer(u, w)
  {
    if Calmer(u, v) { CalmerTransitive(u, v, w); }
  }

  lemma AfterFinalizerKeeps(s: Sys, fin: Ran)
    requires Inv(fin.s) && Calmer(s.w, fin.s.w) && (fin.flow == OK ==> MayDeploy(fin.s)) && Plain(fin.flow)
    ensures var r := AfterFinalizer(fin);
      && Inv(r.s) && Forward(s.w, r.s.w)
      && ((fin.flow == OK ==> AllDisabled(fin.s.cr.spec)) ==> Calmer(s.w, r.s.w))
  {
    hide StoredInv, CopyInv, InOrder, Shipped, Calmer, Converge, Complain, Succeed;
    if fin.flow.Killed? {
    } else if fin.flow.err.Some? {
      ComplainKeeps(fin.s, fin.flow.err.value, Requeue(0));
      CalmerTransitive(s.w, fin.s.w, Complain(fin.s, fin.flow.err.value, Requeue(0)).s.w);
      CalmerIsForward(s.w, Complain(fin.s, fin.flow.err.value, Requeue(0)).s.w);
    } else if fin.flow.result.requeue {
      SucceedKeeps(fin.s, fin.flow.result);
      CalmerTransitive(s.w, fin.s.w, Succeed(fin.s, fin.flow.result).s.w);
      CalmerIsForward(s.w, Succeed(fin.s, fin.flow.result).s.w);
    } else {
      var r := Converge(fin.s);
      ConvergeKeeps(fin.s);
      CalmerIsForward(s.w, fin.s.w);
      if AllDisabled(fin.s.cr.spec) { CalmerTransitive(s.w, fin.s.w, r.s.w); }
    }
    CalmerIsForward(s.w, fin.s.w);
  }

  lemma CalmerIsForward(w: World, v: World)
    requires Calmer(w, v)
    ensures Forward(w, v)
  {
  }

  lemma HandleKeeps(s: Sys)
    requires Inv(s) && ReadInThisCycle(s)
    ensures var r := Handle(s);
      && Inv(r.s) && Forward(s.w, r.s.w)
      && (Uninstalling(s.cr) && !s.cr.spec.skipUninstall ==> Calmer(s.w, r.s.w))
  {
    hide StoredInv, CopyInv, InOrder, Shipped, Calmer, AfterFinalizer, HandleFinalizer, Complain, EnsureServiceAccount;
    if !ValidSpec(s.cr.spec) {
      ComplainKeeps(s, Invalid, Requeue(0));
      CalmerIsForward(s.w, Complain(s, Invalid, Requeue(0)).s.w);
    } else {
      var account := EnsureServiceAccount(s);
      EnsureServiceAccountIsQuiet(s);
      CalmerIsForward(s.w, account.s.w);
      if account.flow.Killed? {
      } else if account.flow.err.Some? {
        ComplainKeeps(account.s, account.flow.err.value, Requeue(0));
        Onwards(s.w, account.s.w, Complain(account.s, account.flow.err.value, Requeue(0)).s.w);
      } else {
        ReadStays(s, account.s);
        var fin := HandleFinalizer(account.s);
        HandleFinalizerKeeps(account.s);
        CalmerTransitive(s.w, account.s.w, fin.s.w);
        AfterFinalizerKeeps(s, fin);
      }
    }
  }
}
