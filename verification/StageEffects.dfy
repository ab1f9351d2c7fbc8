/** What each uninstall stage has done when it reports success, and what it reports otherwise. */
module StageEffects {
  import opened Basics
  import opened Conditions
  import opened Kube
  import opened Objects
  import opened Jobs
  import opened Tasks
  import opened StatusUpdater
  import opened Uninstall
  import opened Finalizer
  import opened Safety
  import opened NodeJobs
  import opened Convergence
  import opened CycleEffects
  import opened LiveCycle
  import opened ActionPass
  import opened Strings

  // ---- the log of a stage ------------------------------------------------------------------------

  /** In the log from `from` on, this request got one of these answers. */
  predicate Got(log: seq<Entry>, from: nat, q: Request, replies: set<Reply>)
  {
    exists i :: from <= i < |log| && log[i].request == q && log[i].reply in replies
  }

  lemma GotAt(log: seq<Entry>, from: nat, i: nat, q: Request, replies: set<Reply>)
    requires from <= i < |log| && log[i].request == q && log[i].reply in replies
    ensures Got(log, from, q, replies)
  {
  }

  lemma GotStays(log: seq<Entry>, more: seq<Entry>, from: nat, earlier: nat, q: Request, replies: set<Reply>)
    requires log <= more && earlier <= from && Got(log, from, q, replies)
    ensures Got(more, earlier, q, replies)
  {
    var i :| from <= i < |log| && log[i].request == q && log[i].reply in replies;
    assert more[i] == log[i];
  }

  lemma OneEntry(s: Sys, q: Request)
    ensures var a := Call(s, q); var n := |s.w.log|;
      && s.w.log <= a.s.w.log
      && (!a.reply.Silence? ==> |a.s.w.log| == n + 1 && a.s.w.log[n].request == q && a.s.w.log[n].reply == a.reply)
  {
    hide Answer, Effect, EnvRun;
    OneMoreEntry(s, q);
  }

  // ---- jobs --------------------------------------------------------------------------------------

  /** In the log from `from` on: the job was deleted or not found, its pods were listed, and each pod listed was deleted or
      not found after that. */
  ghost predicate JobSwept(log: seq<Entry>, from: nat, job: string)
  {
    && Got(log, from, DeleteJob(job), {Done, Fails(NotFound)})
    && exists i :: from <= i < |log| && log[i].request == ListJobPods(job)
         && (log[i].reply == Fails(NotFound)
             || (log[i].reply.PodsAre?
                 && forall p :: p in log[i].reply.pods ==> Got(log, i, DeletePod(p.name), {Done, Fails(NotFound)})))
  }

  lemma {:induction false} PodsSwept(s: Sys, pods: seq<Pod>)
    ensures var r := DeletePods(s, pods);
      && s.w.log <= r.s.w.log
      && (r.flow == OK ==> forall p :: p in pods ==> Got(r.s.w.log, |s.w.log|, DeletePod(p.name), {Done, Fails(NotFound)}))
    decreases |pods|
  {
    hide Call;
    if pods != [] {
      var q := DeletePod(pods[0].name);
      OneEntry(s, q);
      AnswersFit(s, q);
      var one := Deleted(Call(s, q));
      if one.flow == OK {
        var r := DeletePods(one.s, pods[1..]);
        PodsSwept(one.s, pods[1..]);
        if r.flow == OK {
          forall p | p in pods ensures Got(r.s.w.log, |s.w.log|, DeletePod(p.name), {Done, Fails(NotFound)}) {
            if p == pods[0] {
              assert Got(one.s.w.log, |s.w.log|, q, {Done, Fails(NotFound)});
              GotStays(one.s.w.log, r.s.w.log, |s.w.log|, |s.w.log|, q, {Done, Fails(NotFound)});
            } else {
              assert p in pods[1..];
              GotStays(r.s.w.log, r.s.w.log, |one.s.w.log|, |s.w.log|, DeletePod(p.name), {Done, Fails(NotFound)});
            }
          }
        }
      }
    }
  }

  /** Deleting a job succeeds only if the job and every pod listed for it are gone, by this call or before it. */
  lemma JobIsSwept(s: Sys, job: string)
    ensures var r := RemoveJob(s, job); s.w.log <= r.s.w.log && (r.flow == OK ==> JobSwept(r.s.w.log, |s.w.log|, job))
  {
    hide Call, Got, DeletePods;
    var gone := Call(s, DeleteJob(job));
    OneEntry(s, DeleteJob(job));
    AnswersFit(s, DeleteJob(job));
    var listed := Call(gone.s, ListJobPods(job));
    OneEntry(gone.s, ListJobPods(job));
    AnswersFit(gone.s, ListJobPods(job));
    var r := RemoveJob(s, job);
    var n := |gone.s.w.log|;
    if listed.reply.PodsAre? { PodsSwept(listed.s, listed.reply.pods); }
    if r.flow == OK {
      GotAt(gone.s.w.log, |s.w.log|, |s.w.log|, DeleteJob(job), {Done, Fails(NotFound)});
      GotStays(gone.s.w.log, r.s.w.log, |s.w.log|, |s.w.log|, DeleteJob(job), {Done, Fails(NotFound)});
      assert r.s.w.log[n] == listed.s.w.log[n];
      if listed.reply.PodsAre? {
        forall p | p in listed.reply.pods ensures Got(r.s.w.log, n, DeletePod(p.name), {Done, Fails(NotFound)}) {
          GotStays(r.s.w.log, r.s.w.log, n + 1, n, DeletePod(p.name), {Done, Fails(NotFound)});
        }
      }
    }
  }

  /** Starting a job: one request, and success if it was created or is there already. */
  lemma JobIsStarted(s: Sys, job: string)
    ensures var r := StartJob(s, job); var a := Call(s, CreateJob(job));
      && r.s == a.s && (r.flow.Killed? <==> a.reply.Silence?)
      && (r.flow == OK <==> a.reply == Done || a.reply == Fails(AlreadyExists))
      && (a.reply.Fails? && a.reply.error != AlreadyExists ==> r.flow == Fail(a.reply.error))
      && (r.flow == OK ==> Got(r.s.w.log, |s.w.log|, CreateJob(job), {Done, Fails(AlreadyExists)}))
  {
    hide Call;
    OneEntry(s, CreateJob(job));
    AnswersFit(s, CreateJob(job));
  }

  // ---- waiting stages ----------------------------------------------------------------------------

  /** The second stage looks once: it is done if no workload pod is listed, comes back in a second if one is, and a failed
      listing is its error. */
  lemma DrainExactly(s: Sys)
    ensures var r := RunStage(s, 1); var a := Call(s, ListWorkloadPods);
      && r.s == a.s
      && (a.reply == PodsAre([]) <==> r.flow == OK)
      && (a.reply.PodsAre? && a.reply.pods != [] ==> r.flow == Return(Result(true, 1), None))
      && (a.reply.Fails? ==> r.flow == Fail(a.reply.error)) && (a.reply.Silence? ==> r.flow.Killed?)
      && (r.flow == OK ==> Got(r.s.w.log, |s.w.log|, ListWorkloadPods, {PodsAre([])}))
  {
    hide Call;
    OneEntry(s, ListWorkloadPods);
    AnswersFit(s, ListWorkloadPods);
  }

  /** The fourth stage waits only for a job that is seen running; a finished, failed, missing or unreadable one is
      deleted with its pods. */
  lemma ClearDbExactly(s: Sys)
    ensures var r := RunStage(s, 3); var a := Call(s, GetJob("nvmesh-clear-db-job"));
      var running := a.reply.JobIs?
        && (var j := a.reply.job; j.failed == 0 && j.succeeded != j.completions && (j.active > 0 || !j.failedCondition));
      && (running ==> r == Ran(a.s, Return(Result(true, 1), None)))
      && (a.reply.Silence? ==> r == Ran(a.s, Killed))
      && (!running && !a.reply.Silence? ==> r == RemoveJob(a.s, "nvmesh-clear-db-job"))
      && s.w.log <= r.s.w.log && (r.flow == OK ==> JobSwept(r.s.w.log, |s.w.log|, "nvmesh-clear-db-job"))
  {
    hide Call, RemoveJob, Got;
    OneEntry(s, GetJob(CLEAR_DB_JOB));
    AnswersFit(s, GetJob(CLEAR_DB_JOB));
    var a := Call(s, GetJob(CLEAR_DB_JOB));
    JobIsSwept(a.s, CLEAR_DB_JOB);
    var log := RemoveJob(a.s, CLEAR_DB_JOB).s.w.log;
    if JobSwept(log, |a.s.w.log|, CLEAR_DB_JOB) { SweptEarlier(log, |a.s.w.log|, |s.w.log|, CLEAR_DB_JOB); }
  }

  lemma SweptEarlier(log: seq<Entry>, from: nat, earlier: nat, job: string)
    requires earlier <= from && JobSwept(log, from, job)
    ensures JobSwept(log, earlier, job)
  {
    hide Got;
    GotStays(log, log, from, earlier, DeleteJob(job), {Done, Fails(NotFound)});
  }

  // ---- removing claims and the service account ---------------------------------------------------

  /** In the log from `from` on, looking this object up or deleting it failed. */
  ghost predicate Stuck(log: seq<Entry>, from: nat, key: Key)
  {
    exists i :: from <= i < |log| && (log[i].request == GetObject(key) || log[i].request == DeleteObject(key)) && log[i].reply.Fails?
  }

  lemma StuckStays(log: seq<Entry>, more: seq<Entry>, from: nat, earlier: nat, key: Key)
    requires log <= more && earlier <= from && Stuck(log, from, key)
    ensures Stuck(more, earlier, key)
  {
    var i :| from <= i < |log| && (log[i].request == GetObject(key) || log[i].request == DeleteObject(key)) && log[i].reply.Fails?;
    assert more[i] == log[i];
  }

  lemma StuckAt(log: seq<Entry>, from: nat, i: nat, key: Key)
    requires from <= i < |log| && (log[i].request == GetObject(key) || log[i].request == DeleteObject(key)) && log[i].reply.Fails?
    ensures Stuck(log, from, key)
  {
  }

  lemma RemovalOrStuck(s: Sys, key: Key)
    requires Undisturbed(s.ticks)
    ensures var r := RemoveObject(s, key);
      && s.w.log <= r.s.w.log && (r.flow.Return? ==> key !in Contents(r.s.w) || Stuck(r.s.w.log, |s.w.log|, key))
  {
    hide Call, Contents, Stuck;
    RemoveOne(s, key);
    var found := Call(s, GetObject(key));
    OneEntry(s, GetObject(key));
    CallStands(s, GetObject(key));
    OneEntry(found.s, DeleteObject(key));
    AnswersFit(found.s, DeleteObject(key));
    var r := RemoveObject(s, key);
    if found.reply.Fails? {
      StuckAt(r.s.w.log, |s.w.log|, |s.w.log|, key);
    } else if r.flow.Return? && r.flow.err.Some? {
      StuckAt(r.s.w.log, |s.w.log|, |found.s.w.log|, key);
    }
  }

  function Claim(name: string): Key
  {
    Key("PersistentVolumeClaim", name)
  }

  /** From c to d only claims of these names are gone; nothing came and nothing changed. */
  ghost predicate OnlyClaimsGone(names: seq<string>, c: map<Key, Fields>, d: map<Key, Fields>)
  {
    && d.Keys <= c.Keys && (forall k :: k in d ==> d[k] == c[k])
    && forall k :: k in c && k !in d ==> k.kind == "PersistentVolumeClaim" && k.name in names
  }

  lemma {:induction false} ClaimsGo(s: Sys, names: seq<string>)
    requires Undisturbed(s.ticks)
    ensures var r := RemoveClaims(s, names);
      && Stands(s, r.s) && OnlyClaimsGone(names, Contents(s.w), Contents(r.s.w))
      && (r.flow.Killed? || r.flow == OK)
      && (r.flow == OK ==> forall n :: n in names ==> Claim(n) !in Contents(r.s.w) || Stuck(r.s.w.log, |s.w.log|, Claim(n)))
    decreases |names|
  {
    hide RemoveObject, Contents, Stuck;
    if names != [] {
      var key := Claim(names[0]);
      var one := RemoveObject(s, key);
      RemoveOne(s, key);
      RemovalOrStuck(s, key);
      if !one.flow.Killed? {
        ClaimsGo(one.s, names[1..]);
        var r := RemoveClaims(one.s, names[1..]);
        if r.flow == OK {
          forall n | n in names ensures Claim(n) !in Contents(r.s.w) || Stuck(r.s.w.log, |s.w.log|, Claim(n)) {
            if Claim(n) in Contents(r.s.w) {
              if n == names[0] {
                StuckStays(one.s.w.log, r.s.w.log, |s.w.log|, |s.w.log|, Claim(n));
              } else {
                assert n in names[1..];
                StuckStays(r.s.w.log, r.s.w.log, |one.s.w.log|, |s.w.log|, Claim(n));
              }
            }
          }
        }
      }
    }
  }

  /** The seventh stage lists the marked claims once. It touches nothing but those listed, and each of them is gone in the
      end, or looking it up or deleting it failed, which the stage forgets. */
  lemma MarkedClaimsGo(s: Sys)
    requires Undisturbed(s.ticks)
    ensures var r := RunStage(s, 6); var a := Call(s, ListMarkedPvcs); var c, d := Contents(s.w), Contents(r.s.w);
      && Stands(s, r.s)
      && (a.reply.PvcsAre? ==>
            && OnlyClaimsGone(a.reply.names, c, d) && (r.flow.Killed? || r.flow == OK)
            && (r.flow == OK ==> forall n :: n in a.reply.names ==> Claim(n) !in d || Stuck(r.s.w.log, |s.w.log|, Claim(n))))
      && (a.reply.Fails? ==> d == c && r.flow == Fail(a.reply.error))
      && (a.reply.Silence? ==> d == c && r.flow.Killed?)
  {
    hide Call, Contents, RemoveClaims, Stuck;
    var a := Call(s, ListMarkedPvcs);
    CallStands(s, ListMarkedPvcs);
    AsideCall(s, ListMarkedPvcs);
    OneEntry(s, ListMarkedPvcs);
    if a.reply.PvcsAre? {
      ClaimsGo(a.s, a.reply.names);
      var r := RemoveClaims(a.s, a.reply.names);
      forall n | n in a.reply.names && Stuck(r.s.w.log, |a.s.w.log|, Claim(n)) ensures Stuck(r.s.w.log, |s.w.log|, Claim(n)) {
        StuckStays(r.s.w.log, r.s.w.log, |a.s.w.log|, |s.w.log|, Claim(n));
      }
    }
  }

  /** The last stage touches nothing but the three objects of the service account, and none of them is left if it succeeds;
      if it does not, it asks for another turn in a second, error or not. */
  lemma AccountGoes(s: Sys)
    requires Undisturbed(s.ticks)
    ensures var r := RunStage(s, 7); var c, d := Contents(s.w), Contents(r.s.w);
      && Stands(s, r.s) && d.Keys <= c.Keys && (forall k :: k in d ==> d[k] == c[k])
      && (forall k :: k in c && k !in d ==> k in ACCOUNT_KEYS)
      && (r.flow == OK ==> d.Keys !! ACCOUNT_KEYS)
      && (r.flow.Killed? || r.flow == OK || (r.flow.result == Result(true, 1) && r.flow.err.Some?))
  {
    hide RemoveObject, Contents, Undisturbed;
    var account := RemoveObject(s, SERVICE_ACCOUNT.key);
    RemoveOne(s, SERVICE_ACCOUNT.key);
    var role := RemoveObject(account.s, CLUSTER_ROLE.key);
    RemoveOne(account.s, CLUSTER_ROLE.key);
    RemoveOne(role.s, ROLE_BINDING.key);
  }

  // ---- the stages by name ------------------------------------------------------------------------

  lemma WorkloadsGo(s: Sys)
    requires Undisturbed(s.ticks)
    ensures var r := RunStage(s, 0); var res := s.w.res; var d := Contents(r.s.w);
      && Stands(s, r.s) && d.Keys <= Contents(s.w).Keys
      && (r.flow == OK ==> NoneLeft(res.core, d) && NoneLeft(res.csi, d) && NoneLeft(res.mgmt, d))
  {
    hide ReconcileDir, Contents, KeyIn;
    var res := s.w.res;
    var core := ReconcileDir(s, res.coreComponent, res.core, true).s;
    RemoveDirectory(s, res.coreComponent, res.core);
    var csi := ReconcileDir(core, res.csiComponent, res.csi, true).s;
    RemoveDirectory(core, res.csiComponent, res.csi);
    RemoveDirectory(csi, res.mgmtComponent, res.mgmt);
  }

  lemma MongoGoes(s: Sys)
    requires Undisturbed(s.ticks)
    ensures var r := RunStage(s, 4); var d := Contents(r.s.w);
      Stands(s, r.s) && d.Keys <= Contents(s.w).Keys && (r.flow == OK ==> NoneLeft(s.w.res.mongo, d))
  {
    hide ReconcileDir, Contents, KeyIn;
    RemoveDirectory(s, s.w.res.mgmtComponent, s.w.res.mongo);
  }

  const STAGE_NAMES := [
    "removeAllWorkloads", "waitForWorkloadsToFinish", "clearDB", "waitForClearDBToFinish",
    "removeMongo", "uninstallClusterNodes", "deletePVCs", "deleteClusterServiceAccount"]

  /** Every node of some client listing and some target listing had its job seen done, and that job is gone. */
  ghost predicate NodesUninstalled(log: seq<Entry>, from: nat, w: World)
  {
    exists clients, targets ::
      && Listed(log, from, "nvmesh.excelero.com/nvmesh-client", clients)
      && Listed(log, from, "nvmesh.excelero.com/nvmesh-target", targets)
      && forall n :: n in clients || n in targets ==>
           SeenDone(log, from, "n-uninstall-" + Sanitize(n)) && "n-uninstall-" + Sanitize(n) !in w.jobs
  }

  /** Some listing of the marked claims, each of them gone, or looking it up or deleting it failed. */
  ghost predicate ClaimsDealtWith(log: seq<Entry>, from: nat, d: map<Key, Fields>)
  {
    exists names :: Got(log, from, ListMarkedPvcs, {PvcsAre(names)})
      && forall n :: n in names ==> Claim(n) !in d || Stuck(log, from, Claim(n))
  }

  /** What each stage stands for, from s to t. */
  ghost predicate Does(s: Sys, t: Sys, k: nat)
  {
    var res, d, log, from := s.w.res, Contents(t.w), t.w.log, |s.w.log|;
    && (k == 0 ==> NoneLeft(res.core, d) && NoneLeft(res.csi, d) && NoneLeft(res.mgmt, d))
    && (k == 1 ==> Got(log, from, ListWorkloadPods, {PodsAre([])}))
    && (k == 2 ==> Got(log, from, CreateJob("nvmesh-clear-db-job"), {Done, Fails(AlreadyExists)}))
    && (k == 3 ==> JobSwept(log, from, "nvmesh-clear-db-job"))
    && (k == 4 ==> NoneLeft(res.mongo, d))
    && (k == 5 ==> NodesUninstalled(log, from, t.w))
    && (k == 6 ==> ClaimsDealtWith(log, from, d))
    && (k == 7 ==> d.Keys !! {Key("ServiceAccount", "nvmesh-cluster"), Key("Role", "nvmesh-cluster-role"),
                              Key("RoleBinding", "nvmesh-cluster-rb")})
  }

  lemma ClaimsStageDoes(s: Sys)
    requires Undisturbed(s.ticks) && RunStage(s, 6).flow == OK
    ensures ClaimsDealtWith(RunStage(s, 6).s.w.log, |s.w.log|, Contents(RunStage(s, 6).s.w))
  {
    hide Call, Contents, RemoveClaims, Stuck, Got, Undisturbed, OnlyClaimsGone;
    var a := Call(s, ListMarkedPvcs);
    MarkedClaimsGo(s);
    CallStands(s, ListMarkedPvcs);
    OneEntry(s, ListMarkedPvcs);
    AnswersFit(s, ListMarkedPvcs);
    ClaimsGo(a.s, a.reply.names);
    GotAt(a.s.w.log, |s.w.log|, |s.w.log|, ListMarkedPvcs, {PvcsAre(a.reply.names)});
    GotStays(a.s.w.log, RunStage(s, 6).s.w.log, |s.w.log|, |s.w.log|, ListMarkedPvcs, {PvcsAre(a.reply.names)});
  }

  lemma StageDoes(s: Sys, k: nat)
    requires k < 8 && Undisturbed(s.ticks) && RunStage(s, k).flow == OK
    requires Orderly(s.order)
    ensures Does(s, RunStage(s, k).s, k)
  {
    hide RunStage, Contents, NoneLeft, Got, JobSwept, Stuck, SeenDone, Listed, ClusterNodes;
    if k == 0 { WorkloadsGo(s); }
    if k == 1 { DrainExactly(s); }
    if k == 2 { StartStageDoes(s); }
    if k == 3 { ClearDbExactly(s); }
    if k == 4 { MongoGoes(s); }
    if k == 5 { NodesStageDoes(s); }
    if k == 6 { ClaimsStageDoes(s); }
    if k == 7 { AccountGoes(s); }
  }

  lemma StartStageDoes(s: Sys)
    requires RunStage(s, 2).flow == OK
    ensures Got(RunStage(s, 2).s.w.log, |s.w.log|, CreateJob("nvmesh-clear-db-job"), {Done, Fails(AlreadyExists)})
  {
    hide StartJob, Got;
    JobIsStarted(s, CLEAR_DB_JOB);
  }

  lemma NodesStageDoes(s: Sys)
    requires RunStage(s, 5).flow == OK
    requires Orderly(s.order)
    ensures NodesUninstalled(RunStage(s, 5).s.w.log, |s.w.log|, RunStage(s, 5).s.w)
  {
    hide UninstallClusterNodes, ClusterNodes, SeenDone, Listed, Enumerates;
    EveryNodeIsUninstalled(s);
  }

  /** A turn of stage k whose task is not recorded as finished ends without an error or a wait only when the stage has done
      what its name says; the task is recorded as finished then, and nothing else of the status changed. One that is
      recorded as finished is passed over without a request. */
  lemma TurnDoes(s: Sys, k: nat)
    requires k < 8 && Undisturbed(s.ticks)
    requires Orderly(s.order)
    ensures var r := StageTurn(s, k); var tasks := UninstallTasks(s.cr); var name := STAGE_NAMES[k];
      && (name in tasks && tasks[name] == "TaskFinished" ==>
            r.s.w == s.w && r.s.ticks == s.ticks && r.flow == OK && UninstallTasks(r.s.cr) == tasks)
      && (!(name in tasks && tasks[name] == "TaskFinished") && r.flow == OK ==>
            && Does(s, r.s, k)
            && "uninstall" in r.s.cr.status.actions && r.s.cr.status.actions["uninstall"] == tasks[name := "TaskFinished"])
  {
    hide RunStage, Does, ClusterNodes;
    var tasks := UninstallTasks(s.cr);
    assert StageName(k) == STAGE_NAMES[k];
    if !Finished(tasks, StageName(k)) {
      var started := WithTask(WithTouch(s, UNINSTALL), UNINSTALL, StageName(k), TASK_STARTED);
      StageKeepsCopy(started, k);
      StagePlain(started, k);
      if RunStage(started, k).flow == OK {
        StageDoes(started, k);
        SameDeed(s, started, RunStage(started, k).s, StageTurn(s, k).s, k);
        assert tasks[StageName(k) := TASK_STARTED][StageName(k) := TASK_FINISHED] == tasks[StageName(k) := TASK_FINISHED];
      }
    }
  }

  lemma {:induction false} NodeLoopsKeepCopy(s: Sys, nodes: seq<string>)
    ensures StartUninstallJobs(s, nodes).s.cr == s.cr && AwaitUninstallJobs(s, nodes).s.cr == s.cr
    ensures DeleteUninstallJobs(s, nodes).s.cr == s.cr
    decreases |nodes|
  {
    hide StartJob, WaitForJob, RemoveJob;
    if nodes != [] {
      var job := UninstallJob(nodes[0]);
      JobKeepsCopy(s, job);
      RemovalKeepsCopy(s, job);
      NodeLoopsKeepCopy(StartJob(s, job).s, nodes[1..]);
      NodeLoopsKeepCopy(WaitForJob(s, job).s, nodes[1..]);
      NodeLoopsKeepCopy(RemoveJob(s, job).s, nodes[1..]);
    }
  }

  lemma NodesStageKeepsCopy(s: Sys)
    ensures UninstallClusterNodes(s).s.cr == s.cr
  {
    hide NodesWithLabel, StartUninstallJobs, AwaitUninstallJobs, DeleteUninstallJobs;
    ListingKeepsCopy(s, CLIENT_LABEL);
    ListingKeepsCopy(NodesWithLabel(s, CLIENT_LABEL).s, TARGET_LABEL);
    var listed := ClusterNodes(s);
    var nodes := s.order(listed.nodes);
    NodeLoopsKeepCopy(listed.s, nodes);
    var started := StartUninstallJobs(listed.s, nodes).s;
    NodeLoopsKeepCopy(started, nodes);
    NodeLoopsKeepCopy(AwaitUninstallJobs(started, nodes).s, nodes);
  }

  lemma StageKeepsCopy(s: Sys, k: nat)
    requires k < 8 && Undisturbed(s.ticks)
    ensures RunStage(s, k).s.cr == s.cr
  {
    hide ReconcileDir, RemoveWorkloads, WaitForJob, RemoveJob, UninstallClusterNodes, DeletePvcs, RemoveServiceAccount, Call;
    WorkloadsGo(s);
    MongoGoes(s);
    MarkedClaimsGo(s);
    AccountGoes(s);
    NodesStageKeepsCopy(s);
    CallStands(s, ListWorkloadPods);
    JobKeepsCopy(s, CLEAR_DB_JOB);
    RemovalKeepsCopy(WaitForJob(s, CLEAR_DB_JOB).s, CLEAR_DB_JOB);
  }

  lemma {:induction false} PodsPlain(s: Sys, pods: seq<Pod>)
    ensures var flow := DeletePods(s, pods).flow; flow.Killed? || flow == OK || flow.err.Some?
    decreases |pods|
  {
    hide Call;
    if pods != [] { PodsPlain(Call(s, DeletePod(pods[0].name)).s, pods[1..]); }
  }

  lemma JobPlain(s: Sys, job: string)
    ensures var flow := RemoveJob(s, job).flow; flow.Killed? || flow == OK || flow.err.Some?
  {
    hide Call;
    var gone := Call(s, DeleteJob(job)).s;
    var listed := Call(gone, ListJobPods(job));
    if listed.reply.PodsAre? { PodsPlain(listed.s, listed.reply.pods); }
  }

  lemma {:induction false} NodeLoopsPlain(s: Sys, nodes: seq<string>)
    ensures var flow := StartUninstallJobs(s, nodes).flow; flow.Killed? || flow == OK
    ensures var flow := AwaitUninstallJobs(s, nodes).flow; flow.Killed? || flow == OK || flow.result.requeue || flow.err.Some?
    ensures var flow := DeleteUninstallJobs(s, nodes).flow; flow.Killed? || flow == OK || flow.err.Some?
    decreases |nodes|
  {
    hide Call, RemoveJob, StateOf;
    if nodes != [] {
      var job := UninstallJob(nodes[0]);
      JobPlain(s, job);
      NodeLoopsPlain(StartJob(s, job).s, nodes[1..]);
      NodeLoopsPlain(WaitForJob(s, job).s, nodes[1..]);
      NodeLoopsPlain(RemoveJob(s, job).s, nodes[1..]);
    }
  }

  lemma NodesStagePlain(s: Sys)
    ensures var flow := UninstallClusterNodes(s).flow; flow.Killed? || flow == OK || flow.result.requeue || flow.err.Some?
  {
    hide Call, StartUninstallJobs, AwaitUninstallJobs, DeleteUninstallJobs;
    var listed := ClusterNodes(s);
    var nodes := s.order(listed.nodes);
    NodeLoopsPlain(listed.s, nodes);
    var started := StartUninstallJobs(listed.s, nodes).s;
    NodeLoopsPlain(started, nodes);
    NodeLoopsPlain(AwaitUninstallJobs(started, nodes).s, nodes);
  }

  lemma WorkloadsPlain(s: Sys)
    ensures var flow := RunStage(s, 0).flow; flow.Killed? || flow == OK || flow.err.Some?
    ensures var flow := RunStage(s, 4).flow; flow.Killed? || flow == OK || flow.err.Some?
  {
    hide ReconcileDir;
    var res := s.w.res;
    DirPlain(s, res.mgmtComponent, res.mongo, true);
    DirPlain(s, res.coreComponent, res.core, true);
    var core := ReconcileDir(s, res.coreComponent, res.core, true).s;
    DirPlain(core, res.csiComponent, res.csi, true);
    DirPlain(ReconcileDir(core, res.csiComponent, res.csi, true).s, res.mgmtComponent, res.mgmt, true);
  }

  /** A stage succeeds plainly, asks for another turn, or fails. */
  lemma StagePlain(s: Sys, k: nat)
    requires k < 8 && Undisturbed(s.ticks)
    ensures var flow := RunStage(s, k).flow; flow.Killed? || flow == OK || flow.result.requeue || flow.err.Some?
  {
    hide RunStage, Contents, Got, Stuck, JobSwept;
    if k == 0 || k == 4 { WorkloadsPlain(s); }
    if k == 1 { DrainExactly(s); AnswersFit(s, ListWorkloadPods); }
    if k == 2 { StartPlain(s); }
    if k == 3 { ClearDbExactly(s); JobPlain(Call(s, GetJob("nvmesh-clear-db-job")).s, "nvmesh-clear-db-job"); }
    if k == 5 { FifthPlain(s); }
    if k == 6 { MarkedClaimsGo(s); AnswersFit(s, ListMarkedPvcs); }
    if k == 7 { AccountGoes(s); }
  }

  lemma StartPlain(s: Sys)
    ensures var flow := RunStage(s, 2).flow; flow.Killed? || flow == OK || flow.err.Some?
  {
    hide Call;
  }

  lemma FifthPlain(s: Sys)
    ensures var flow := RunStage(s, 5).flow; flow.Killed? || flow == OK || flow.result.requeue || flow.err.Some?
  {
    hide UninstallClusterNodes;
    NodesStagePlain(s);
  }

  lemma SameDeed(s: Sys, started: Sys, done: Sys, t: Sys, k: nat)
    requires started.w == s.w && t.w == done.w && Does(started, done, k)
    ensures Does(s, t, k)
  {
  }

  /** A turn whose stage does not succeed leaves the task recorded as started: one that asks to be run again reports just
      that, its error dropped; another error is reported as it is. */
  lemma TurnStops(s: Sys, k: nat)
    requires k < 8 && Undisturbed(s.ticks)
    ensures var tasks := UninstallTasks(s.cr); var name := STAGE_NAMES[k];
      !(name in tasks && tasks[name] == "TaskFinished") ==>
        exists started: Sys ::
          && started == s.(cr := s.cr.(status := started.cr.status))
          && started.cr.status.conditions == s.cr.status.conditions
          && started.cr.status.actions == s.cr.status.actions["uninstall" := tasks[name := "TaskStarted"]]
          && var r := RunStage(started, k); var turn := StageTurn(s, k);
             && r.s.cr == started.cr
             && (r.flow != OK ==> turn.s == r.s)
             && (r.flow.Killed? ==> turn.flow.Killed?)
             && (r.flow.Return? && r.flow.result.requeue ==> turn.flow == Return(r.flow.result, None))
             && (r.flow.Return? && !r.flow.result.requeue && r.flow.err.Some? ==> turn.flow == Return(Result(false, 0), r.flow.err))
  {
    hide RunStage;
    assert StageName(k) == STAGE_NAMES[k];
    var tasks := UninstallTasks(s.cr);
    if !Finished(tasks, StageName(k)) {
      var started := WithTask(WithTouch(s, UNINSTALL), UNINSTALL, StageName(k), TASK_STARTED);
      StageKeepsCopy(started, k);
      StagePlain(started, k);
      assert started.cr.status.actions == s.cr.status.actions["uninstall" := tasks[STAGE_NAMES[k] := "TaskStarted"]];
    }
  }

  /** Whatever fails, the uninstall job of every node is asked for. */
  lemma {:induction false} EveryJobIsAskedFor(s: Sys, nodes: seq<string>)
    ensures var r := StartUninstallJobs(s, nodes);
      && s.w.log <= r.s.w.log && (r.flow.Killed? || r.flow == OK)
      && (r.flow == OK ==> forall n :: n in nodes ==>
            exists i :: |s.w.log| <= i < |r.s.w.log| && r.s.w.log[i].request == CreateJob(UninstallJob(n)))
    decreases |nodes|
  {
    hide Call, UninstallJob;
    if nodes != [] {
      var q := CreateJob(UninstallJob(nodes[0]));
      var one := StartJob(s, UninstallJob(nodes[0]));
      OneEntry(s, q);
      if !one.flow.Killed? {
        EveryJobIsAskedFor(one.s, nodes[1..]);
        var r := StartUninstallJobs(one.s, nodes[1..]);
        assert r.s.w.log[|s.w.log|] == one.s.w.log[|s.w.log|];
        forall n | n in nodes && r.flow == OK
          ensures exists i :: |s.w.log| <= i < |r.s.w.log| && r.s.w.log[i].request == CreateJob(UninstallJob(n))
        {
          if n == nodes[0] {
            assert r.s.w.log[|s.w.log|].request == q;
          } else {
            assert n in nodes[1..];
          }
        }
      }
    }
  }

  /** The sixth stage looks at the jobs in turn, up to the first that is not done, and comes to what waiting for that one
      does. */
  lemma {:induction false} JobsAreLookedAtInTurn(s: Sys, nodes: seq<string>)
    ensures var r := AwaitUninstallJobs(s, nodes);
      r.flow != OK ==>
        exists n: nat, t: Sys ::
          && n < |nodes| && r == WaitForJob(t, UninstallJob(nodes[n])) && s.w.log <= t.w.log
          && forall i :: 0 <= i < n ==> SeenDone(t.w.log, |s.w.log|, UninstallJob(nodes[i]))
    decreases |nodes|
  {
    hide WaitForJob, UninstallJob, SeenDone;
    if nodes != [] {
      var job := UninstallJob(nodes[0]);
      var one := WaitForJob(s, job);
      WaitingSees(s, job);
      var r := AwaitUninstallJobs(s, nodes);
      if one.flow != OK {
        assert r == WaitForJob(s, UninstallJob(nodes[0]));
      } else if r.flow != OK {
        JobsAreLookedAtInTurn(one.s, nodes[1..]);
        var n: nat, t: Sys :| n < |nodes[1..]| && r == WaitForJob(t, UninstallJob(nodes[1..][n])) && one.s.w.log <= t.w.log
          && forall i :: 0 <= i < n ==> SeenDone(t.w.log, |one.s.w.log|, UninstallJob(nodes[1..][i]));
        SeenDoneStays(one.s.w.log, t.w.log, |s.w.log|, |s.w.log|, job);
        forall i | 0 <= i < n + 1 ensures SeenDone(t.w.log, |s.w.log|, UninstallJob(nodes[i])) {
          if i > 0 {
            assert nodes[1..][i - 1] == nodes[i];
            SeenDoneStays(t.w.log, t.w.log, |one.s.w.log|, |s.w.log|, UninstallJob(nodes[i]));
          }
        }
        assert r == WaitForJob(t, UninstallJob(nodes[n + 1]));
      }
    }
  }

  /** The first stage goes through core, CSI and management in that order and stops at the first that fails. */
  lemma WorkloadsInTurn(s: Sys)
    ensures var res := s.w.res; var r := RunStage(s, 0);
      var core := ReconcileDir(s, res.coreComponent, res.core, true);
      var csi := ReconcileDir(core.s, res.csiComponent, res.csi, true);
      && (core.flow != OK ==> r == core)
      && (core.flow == OK && csi.flow != OK ==> r == csi)
      && (core.flow == OK && csi.flow == OK ==>
            r == ReconcileDir(csi.s, res.mgmtComponent, res.mgmt, true))
  {
    hide ReconcileDir;
  }

  /** A listing of nodes that fails ends the sixth stage with its error, the clients' before the targets'. */
  lemma FailedListingEnds(s: Sys)
    ensures var clients := Call(s, ListNodes("nvmesh.excelero.com/nvmesh-client"));
      var targets := Call(clients.s, ListNodes("nvmesh.excelero.com/nvmesh-target")); var r := RunStage(s, 5);
      && (clients.reply.Fails? && clients.reply.error != NotFound ==> r == Ran(clients.s, Fail(clients.reply.error)))
      && (clients.reply.NodesAre? && targets.reply.Fails? && targets.reply.error != NotFound ==>
            r == Ran(targets.s, Fail(targets.reply.error)))
  {
    hide Call, UninstallNodes;
  }

  /** An uninstall that is done has recorded the action as complete and switched the three components off in the copy, and
      changed nothing else of its spec. */
  lemma CompletionIsRecorded(s: Sys)
    requires TakeDown(s).flow == OK && !s.cr.spec.skipUninstall
    ensures var before := RunStages(s, 0).s.cr; var after := TakeDown(s).s.cr;
      && after.spec == before.spec.(coreDisabled := true, csiDisabled := true, mgmtDisabled := true)
      && after == before.(spec := after.spec, status := after.status) && after.status.conditions == before.status.conditions
      && after.status.actions == before.status.actions["uninstall" := UninstallTasks(before)["ActionComplete" := "TaskFinished"]]
  {
    hide RunStages;
  }
}
