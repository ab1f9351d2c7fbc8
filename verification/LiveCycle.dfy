/** A whole cycle on a live resource: what it leaves behind when the components report no error. */
module LiveCycle {
  import opened Basics
  import opened Kube
  import opened Conditions
  import opened Components
  import opened Objects
  import opened Jobs
  import opened Tasks
  import opened StatusUpdater
  import opened Management
  import opened Uninstall
  import opened Finalizer
  import opened CollectLogs
  import opened Reconciler
  import opened Convergence
  import opened Deployment
  import opened CycleEffects

  // ---- work that leaves the objects alone --------------------------------------------------------

  /** From s to t no object changed, if nobody else changes any. */
  ghost predicate Aside(s: Sys, t: Sys)
  {
    Undisturbed(s.ticks) ==> Undisturbed(t.ticks) && t.w.res == s.w.res && Contents(t.w) == Contents(s.w)
  }

  lemma AsideOn(r: Sys, s: Sys, t: Sys)
    requires Aside(r, s) && Aside(s, t)
    ensures Aside(r, t)
  {
  }

  lemma AsideCall(s: Sys, q: Request)
    requires !q.CreateObject? && !q.UpdateObject? && !q.DeleteObject?
    ensures Aside(s, Call(s, q).s)
  {
    hide EnvRun, Answer;
    if s.ticks != [] && Undisturbed(s.ticks) {
      OthersLeaveObjects(s.w, s.ticks[0].steps);
      assert Contents(Call(s, q).s.w) == Contents(s.w);
    }
  }

  lemma {:induction false} WriteStatusAside(s: Sys, status: CrStatus, attempts: nat)
    ensures Aside(s, WriteStatus(s, status, attempts).s)
    decreases attempts, 0
  {
    hide Call, Contents;
    var ready := WithStatus(s, status);
    var a := Call(ready, UpdateStatus(ready.cr));
    AsideCall(ready, UpdateStatus(ready.cr));
    if a.reply == Fails(Conflict) && attempts > 1 {
      RereadAside(a.s, status, attempts - 1);
      AsideOn(s, a.s, RereadAndWrite(a.s, status, attempts - 1).s);
    }
  }

  lemma {:induction false} RereadAside(s: Sys, status: CrStatus, attempts: nat)
    ensures Aside(s, RereadAndWrite(s, status, attempts).s)
    decreases attempts, 1
  {
    hide Call, Contents;
    var a := Call(s, GetCr);
    AsideCall(s, GetCr);
    if a.reply.CrIs? {
      var t := a.s.(cr := a.reply.cr);
      WriteStatusAside(t, status, attempts);
      AsideOn(s, t, WriteStatus(t, status, attempts).s);
    }
  }

  lemma PushesAside(s: Sys)
    ensures Aside(s, PushStatus(s).s) && Aside(s, PushCr(s).s)
  {
    hide Call, Contents;
    WriteStatusAside(s, s.cr.status, STATUS_ATTEMPTS);
    AsideCall(s, UpdateCr(s.cr));
  }

  lemma ReportAside(s: Sys, issue: Error, result: Result)
    ensures Aside(s, Succeed(s, result).s) && Aside(s, Complain(s, issue, result).s)
  {
    hide PushStatus, Contents;
    PushesAside(WithCondition(s, Ready(True, "")));
    PushesAside(WithCondition(s, Ready(False, ErrorText(issue))));
  }

  lemma {:induction false} PodsAside(s: Sys, pods: seq<Pod>)
    ensures Aside(s, DeletePods(s, pods).s)
    decreases |pods|
  {
    hide Call, Contents;
    if pods != [] {
      var one := Call(s, DeletePod(pods[0].name)).s;
      AsideCall(s, DeletePod(pods[0].name));
      PodsAside(one, pods[1..]);
      AsideOn(s, one, DeletePods(one, pods[1..]).s);
    }
  }

  lemma JobAside(s: Sys, job: string)
    ensures Aside(s, StartJob(s, job).s) && Aside(s, WaitForJob(s, job).s) && Aside(s, RemoveJob(s, job).s)
  {
    hide Call, Contents;
    AsideCall(s, CreateJob(job));
    AsideCall(s, GetJob(job));
    var gone := Call(s, DeleteJob(job)).s;
    AsideCall(s, DeleteJob(job));
    var listed := Call(gone, ListJobPods(job));
    AsideCall(gone, ListJobPods(job));
    AsideOn(s, gone, listed.s);
    if listed.reply.PodsAre? {
      PodsAside(listed.s, listed.reply.pods);
      AsideOn(s, listed.s, DeletePods(listed.s, listed.reply.pods).s);
    }
  }

  // ---- collect-logs ------------------------------------------------------------------------------

  lemma {:induction false} LogJobsAside(s: Sys, nodes: seq<string>)
    ensures Aside(s, StartLogJobs(s, nodes).s) && Aside(s, AwaitLogJobs(s, nodes).s) && Aside(s, DeleteLogJobs(s, nodes).s)
    decreases |nodes|
  {
    hide StartJob, WaitForJob, RemoveJob, Contents;
    if nodes != [] {
      var job := LogsJob(nodes[0]);
      JobAside(s, job);
      LogJobsAside(StartJob(s, job).s, nodes[1..]);
      LogJobsAside(WaitForJob(s, job).s, nodes[1..]);
      LogJobsAside(RemoveJob(s, job).s, nodes[1..]);
    }
  }

  lemma NodesAside(s: Sys)
    ensures Aside(s, LogNodes(s).s)
  {
    hide Call, Contents;
    AsideCall(s, ListNodes(CLIENT_LABEL));
    var clients := Call(s, ListNodes(CLIENT_LABEL)).s;
    AsideCall(clients, ListNodes(TARGET_LABEL));
    var targets := Call(clients, ListNodes(TARGET_LABEL)).s;
    AsideCall(targets, ListNodes(MGMT_LABEL));
  }

  lemma JobStageAside(s: Sys, action: string, task: string, job: string)
    ensures Aside(s, JobStage(s, action, task, job).s)
  {
    hide StartJob, Contents;
    JobAside(WithTask(WithTouch(s, action), action, task, TASK_STARTED), job);
  }

  lemma AwaitJobsAside(s: Sys, nodes: seq<string>)
    ensures Aside(s, AwaitJobs(s, nodes).s)
  {
    hide WaitForJob, AwaitLogJobs, Contents;
    var db := WaitForJob(s, DB_JOB).s;
    JobAside(s, DB_JOB);
    var maps := WaitForJob(db, CONFIG_MAPS_JOB).s;
    JobAside(db, CONFIG_MAPS_JOB);
    LogJobsAside(maps, nodes);
  }

  lemma DeleteJobsAside(s: Sys, nodes: seq<string>)
    ensures Aside(s, DeleteJobs(s, nodes).s)
  {
    hide RemoveJob, DeleteLogJobs, Contents;
    var db := RemoveJob(s, DB_JOB).s;
    JobAside(s, DB_JOB);
    var maps := RemoveJob(db, CONFIG_MAPS_JOB).s;
    JobAside(db, CONFIG_MAPS_JOB);
    LogJobsAside(maps, nodes);
  }

  lemma CreateAside(s: Sys, action: string, nodes: seq<string>)
    ensures Aside(s, CreateStage(s, action, nodes).s)
  {
    hide StartLogJobs, Contents, Undisturbed;
    LogJobsAside(WithTask(WithTouch(s, action), action, COLLECT_LOGS, TASK_STARTED), nodes);
  }

  lemma WaitAside(s: Sys, action: string, nodes: seq<string>)
    ensures Aside(s, WaitStage(s, action, nodes).s)
  {
    hide AwaitJobs, Contents, Undisturbed;
    AwaitJobsAside(WithTask(WithTouch(s, action), action, WAIT_FOR_JOBS, TASK_STARTED), nodes);
  }

  lemma DeleteAside(s: Sys, action: string, nodes: seq<string>)
    ensures Aside(s, DeleteStage(s, action, nodes).s)
  {
    hide DeleteJobs, Contents, Undisturbed;
    DeleteJobsAside(WithTask(WithTouch(s, action), action, DELETE_JOBS, TASK_STARTED), nodes);
  }

  lemma NodeStagesAside(s: Sys, action: string, nodes: seq<string>)
    ensures Aside(s, NodeStages(s, action, nodes).s)
  {
    hide CreateStage, WaitStage, DeleteStage, Contents, Undisturbed;
    CreateAside(s, action, nodes);
    var created := CreateStage(s, action, nodes).s;
    WaitAside(created, action, nodes);
    DeleteAside(WaitStage(created, action, nodes).s, action, nodes);
  }

  lemma CollectAside(s: Sys, action: string)
    ensures Aside(s, Collect(s, action).r.s)
  {
    hide JobStage, LogNodes, NodeStages, Contents;
    var db := JobStage(s, action, COLLECT_DB, DB_JOB).s;
    JobStageAside(s, action, COLLECT_DB, DB_JOB);
    JobStageAside(db, action, COLLECT_CONFIG_MAPS, CONFIG_MAPS_JOB);
    var started := StartCollectors(s, action).s;
    NodesAside(started);
    var listed := LogNodes(started);
    NodeStagesAside(listed.s, action, started.order(listed.nodes));
  }

  // ---- actions -----------------------------------------------------------------------------------

  lemma TurnAside(s: Sys, action: Action, index: nat)
    ensures Aside(s, TurnOf(s, action, index).s)
  {
    hide Collect, PushCr, PushStatus, Contents;
    var a := TakeAction(s, action);
    CollectAside(s, action.name);
    var shorter := ActionRemoved(a.r.s.cr.spec.actions, index);
    if shorter.Some? { PushesAside(a.r.s.(cr := a.r.s.cr.(spec := a.r.s.cr.spec.(actions := shorter.value)))); }
    var kept := if a.remove then Retire(a.r.s, index) else Ran(a.r.s, OK);
    assert Aside(a.r.s, kept.s);
    PushesAside(kept.s);
  }

  lemma {:induction false} HandleActionsAside(s: Sys, pending: seq<Action>, index: nat)
    ensures Aside(s, HandleActions(s, pending, index).s)
    decreases |pending|
  {
    hide TurnOf, Contents;
    if pending != [] {
      var one := TurnOf(s, pending[0], index);
      TurnAside(s, pending[0], index);
      if one.flow == OK { HandleActionsAside(one.s, pending[1..], index + 1); }
    }
  }

  lemma ActionsAside(s: Sys)
    ensures Aside(s, Actions(s).s)
  {
    hide PushStatus, HandleActions, Succeed, Complain, Contents;
    PushesAside(WithStatus(s, s.cr.status.(actions := LiveStatuses(s.cr))));
    var swept := DropStale(s);
    ReportAside(swept.s, Invalid, if swept.flow.Killed? then DO_NOT_REQUEUE else swept.flow.result);
    var acted := HandleActions(swept.s, swept.s.cr.spec.actions, 0);
    HandleActionsAside(swept.s, swept.s.cr.spec.actions, 0);
    if acted.flow.Return? {
      ReportAside(acted.s, if acted.flow.err.Some? then acted.flow.err.value else Invalid, acted.flow.result);
      ReportAside(acted.s, Invalid, DO_NOT_REQUEUE);
    }
  }

  // ---- before the components ---------------------------------------------------------------------

  lemma EnsureBare(s: Sys, m: Manifest)
    requires Undisturbed(s.ticks)
    ensures var r := EnsureObject(s, None, m); var c, d := Contents(s.w), Contents(r.s.w);
      && Stands(s, r.s) && SameElsewhere(c, d, m.key)
      && (d == c || (m.key !in c && d == c[m.key := m.fields]))
      && (r.flow == OK ==> m.key in d) && (r.flow == Killed || !r.flow.result.requeue)
  {
    hide Call;
    var found := Call(s, GetObject(m.key));
    CallStands(s, GetObject(m.key));
    if found.reply == Fails(NotFound) { CallStands(found.s, CreateObject(m)); }
  }

  const ACCOUNT_KEYS: set<Key> := {
    Key("ServiceAccount", "nvmesh-cluster"), Key("Role", "nvmesh-cluster-role"), Key("RoleBinding", "nvmesh-cluster-rb") }

  /** Only objects of the service account may have come; nothing that was there changed. */
  ghost predicate OnlyAccountAdded(s: Sys, t: Sys)
  {
    && Stands(s, t) && Contents(s.w).Keys <= Contents(t.w).Keys
    && (forall k :: k in Contents(s.w) ==> Contents(t.w)[k] == Contents(s.w)[k])
    && (forall k :: k in Contents(t.w) ==> k in Contents(s.w) || k in ACCOUNT_KEYS)
  }

  /** Whatever fails, ensuring the service account adds at most its three objects; if it reports no error, account, role
      and binding are all there. */
  lemma ServiceAccountIsThere(s: Sys)
    requires Undisturbed(s.ticks)
    ensures var r := EnsureServiceAccount(s);
      && OnlyAccountAdded(s, r.s)
      && (r.flow == OK ==> ACCOUNT_KEYS <= Contents(r.s.w).Keys)
      && (r.flow.Killed? || !r.flow.result.requeue)
  {
    hide EnsureObject, Contents;
    var account := EnsureObject(s, None, SERVICE_ACCOUNT);
    EnsureBare(s, SERVICE_ACCOUNT);
    EnsureBare(account.s, CLUSTER_ROLE);
    var role := EnsureObject(account.s, None, CLUSTER_ROLE);
    EnsureBare(role.s, ROLE_BINDING);
  }

  /** The finalizer of a live resource: without the operator's finalizer the cycle asks for exactly one write, the
      finalizers read and this one behind them, and goes on exactly if that write is answered; with it, and for a deleted
      resource without it, nothing is asked for. */
  lemma FinalizerIsTaken(s: Sys)
    ensures var ours := "cluster.finalizers.nvmesh.excelero.com" in s.cr.finalizers; var r := HandleFinalizer(s);
      && (ours != s.cr.deleting ==> r == Ran(s, OK))
      && (!ours && !s.cr.deleting ==>
           var wanted := s.cr.(finalizers := s.cr.finalizers + ["cluster.finalizers.nvmesh.excelero.com"]);
           var a := Call(s.(cr := wanted), UpdateCr(wanted));
           && r.s.w == a.s.w && r.s.ticks == a.s.ticks
           && (r.flow == OK <==> a.reply.CrIs?) && (r.flow == OK ==> r.s.cr == a.reply.cr)
           && (r.flow.Killed? <==> a.reply.Silence?)
           && (r.flow.Return? ==> r.flow.result == DO_NOT_REQUEUE && (r.flow.err.Some? <==> a.reply.Fails?)))
  {
    hide Call;
    var wanted := s.cr.(finalizers := s.cr.finalizers + [CLUSTER_FINALIZER]);
    AnswersFit(s.(cr := wanted), UpdateCr(wanted));
  }

  /** A stored resource update keeps the writer's spec and finalizers. */
  lemma StoredAsWritten(s: Sys)
    ensures var a := Call(s, UpdateCr(s.cr)); a.reply.CrIs? ==>
      a.reply.cr.spec == s.cr.spec && a.reply.cr.finalizers == s.cr.finalizers
  {
  }

  lemma FinalizerAside(s: Sys)
    requires !s.cr.deleting
    ensures var r := HandleFinalizer(s); Aside(s, r.s) && (r.flow == OK ==> r.s.cr.spec == s.cr.spec)
  {
    hide Call, Contents;
    var wanted := WithFinalizers(s, s.cr.finalizers + [CLUSTER_FINALIZER]);
    AsideCall(wanted, UpdateCr(wanted.cr));
    StoredAsWritten(wanted);
    AnswersFit(wanted, UpdateCr(wanted.cr));
  }

  // ---- the cycle ---------------------------------------------------------------------------------

  /** The service account and the finalizer are in order, and no component reports an error or asks for another turn. */
  ghost predicate Undelayed(s: Sys)
  {
    var account := EnsureServiceAccount(s);
    var fin := HandleFinalizer(account.s);
    var all := ReconcileAll(fin.s).flow;
    account.flow == OK && fin.flow == OK && all.Return? && !all.result.requeue && all.err.None?
  }

  lemma StaleConfigStays(s: Sys, t: Sys, spec: Spec)
    requires OnlyAccountAdded(s, t) && !StaleConfig(s.w, spec)
    ensures !StaleConfig(t.w, spec)
  {
    assert MGMT_CONFIG.kind == "ConfigMap" && MGMT_CONFIG !in ACCOUNT_KEYS;
    StaleStays(s.w, t.w, spec);
  }

  /** A cycle over a live resource that is not delayed ends with each component deployed or removed by its own flag in the
      spec that was read, mongo by management's and its own, whatever becomes of the actions after them. */
  lemma LiveCycleTakesEffect(s: Sys, cr: Cr)
    requires Undisturbed(s.ticks) && Real(s.w.res) && !StaleConfig(s.w, cr.spec)
    requires Call(s, GetCr).reply == CrIs(cr) && !cr.deleting && !(cr.spec.mongoExternal && cr.spec.mongoAddress == "")
    requires Undelayed(Call(s, GetCr).s.(cr := cr))
    ensures AsSpecified(s.w.res, cr.spec, Contents(Reconcile(s).s.w))
  {
    hide Call, Contents, EnsureServiceAccount, HandleFinalizer, ReconcileAll, Actions, StaleConfig, AsSpecified, Complain, Succeed,
      Real;
    var read := Call(s, GetCr).s.(cr := cr);
    AsideCall(s, GetCr);
    AsideStale(s, read, cr.spec);
    var account := EnsureServiceAccount(read).s;
    ServiceAccountIsThere(read);
    StaleConfigStays(read, account, cr.spec);
    var fin := HandleFinalizer(account).s;
    FinalizerAside(account);
    AsideStale(account, fin, cr.spec);
    ComponentsTakeEffect(fin);
    var all := ReconcileAll(fin).s;
    ActionsAside(all);
    assert ValidSpec(cr.spec);
    assert Reconcile(s).s == Actions(all).s;
  }

  lemma AsideStale(s: Sys, t: Sys, spec: Spec)
    requires Undisturbed(s.ticks) && Aside(s, t) && !StaleConfig(s.w, spec)
    ensures !StaleConfig(t.w, spec)
  {
    StaleStays(s.w, t.w, spec);
  }
}
