/** Which node jobs are created, seen done and deleted: uninstalling nodes and collecting logs. */
module NodeJobs {
  import opened Basics
  import opened Strings
  import opened Kube
  import opened Jobs
  import opened Tasks
  import opened Uninstall
  import opened CollectLogs

  // ---- job names -------------------------------------------------------------------------------

  lemma {:induction false} SanitizeKeepsLength(s: string)
    ensures |Sanitize(s)| == |s|
    ensures forall i :: 0 <= i < |s| ==> Sanitize(s)[i] == if s[i] == '.' then '-' else s[i]
  {
    if s != "" { SanitizeKeepsLength(s[1..]); }
  }

  predicate AlikeBut(a: string, b: string)
  {
    |a| == |b| && forall i :: 0 <= i < |a| ==> a[i] == b[i] || (a[i] in ".-" && b[i] in ".-")
  }

  lemma SanitizesAlike(a: string, b: string)
    ensures Sanitize(a) == Sanitize(b) <==> AlikeBut(a, b)
  {
    SanitizeKeepsLength(a);
    SanitizeKeepsLength(b);
    var x, y := Sanitize(a), Sanitize(b);
    if AlikeBut(a, b) {
      assert forall i :: 0 <= i < |x| ==> x[i] == y[i];
    }
    if x == y {
      forall i | 0 <= i < |a| ensures a[i] == b[i] || (a[i] in ".-" && b[i] in ".-") {
        assert x[i] == y[i];
      }
    }
  }

  /** Two nodes share a job exactly when their names agree but for dots against dashes. */
  lemma JobsClashExactly(a: string, b: string)
    ensures UninstallJob(a) == UninstallJob(b) <==> AlikeBut(a, b)
    ensures LogsJob(a) == LogsJob(b) <==> AlikeBut(a, b)
  {
    SanitizesAlike(a, b);
    hide Sanitize;
    assert UninstallJob(a)[12..] == Sanitize(a) && UninstallJob(b)[12..] == Sanitize(b);
    assert LogsJob(a)[13..] == Sanitize(a) && LogsJob(b)[13..] == Sanitize(b);
  }

  /** The mapping is not injective: these two nodes get one job between them. */
  lemma TwoNodesOneJob()
    ensures "node.1" != "node-1" && UninstallJob("node.1") == UninstallJob("node-1")
  {
    JobsClashExactly("node.1", "node-1");
  }

  function JobNames(nodes: set<string>): set<string>
  {
    set n | n in nodes :: LogsJob(n)
  }

  predicate IsLogsJob(job: string)
  {
    |job| >= 13 && job[..13] == "collect-logs-"
  }

  function LogsJobs(w: World): set<string>
  {
    set j | j in w.jobs && IsLogsJob(j)
  }

  lemma LogsJobShape(node: string)
    ensures IsLogsJob(LogsJob(node)) && !IsLogsJob(DB_JOB) && !IsLogsJob(CONFIG_MAPS_JOB)
  {
    assert CONFIG_MAPS_JOB[..13] == "collect-confi" && CONFIG_MAPS_JOB[8] == 'c' && "collect-logs-"[8] == 'l';
  }

  // ---- following the jobs through requests -----------------------------------------------------

  /** Nobody else removes jobs; nobody else creates them in any case. */
  predicate JobsLeftAlone(ticks: seq<Tick>)
  {
    forall i, j :: 0 <= i < |ticks| && 0 <= j < |ticks[i].steps| ==> !ticks[i].steps[j].JobGone?
  }

  /** Nobody relabels a node. */
  predicate NodesStay(ticks: seq<Tick>)
  {
    forall i, j :: 0 <= i < |ticks| && 0 <= j < |ticks[i].steps| ==> !ticks[i].steps[j].NodesBecome?
  }

  /** The stored resource keeps its status, or is gone. */
  predicate StatusStays(w: World, v: World)
  {
    v.cr.Some? ==> w.cr.Some? && v.cr.value.status == w.cr.value.status
  }

  lemma {:induction false} OthersAndNodes(w: World, steps: seq<EnvStep>)
    ensures var v := EnvRun(w, steps);
      StatusStays(w, v) && ((forall j :: 0 <= j < |steps| ==> !steps[j].NodesBecome?) ==> v.nodes == w.nodes)
    decreases |steps|
  {
    if steps != [] {
      OneMoveAndNodes(w, steps[0]);
      OthersAndNodes(EnvStepped(w, steps[0]), steps[1..]);
      if forall j :: 0 <= j < |steps| ==> !steps[j].NodesBecome? {
        assert !steps[0].NodesBecome?;
        forall j | 0 <= j < |steps[1..]| ensures !steps[1..][j].NodesBecome? { assert steps[1..][j] == steps[j + 1]; }
      }
    }
  }

  lemma OneMoveAndNodes(w: World, e: EnvStep)
    ensures var v := EnvStepped(w, e); StatusStays(w, v) && (!e.NodesBecome? ==> v.nodes == w.nodes)
  {
    hide Managed;
  }

  lemma NodesAfterCall(s: Sys, q: Request)
    ensures var t := Call(s, q).s;
      && (NodesStay(s.ticks) ==> NodesStay(t.ticks) && t.w.nodes == s.w.nodes)
      && (!q.UpdateStatus? ==> StatusStays(s.w, t.w))
  {
    hide EnvRun, Answer;
    if s.ticks != [] {
      OthersAndNodes(s.w, s.ticks[0].steps);
      if NodesStay(s.ticks) {
        forall j | 0 <= j < |s.ticks[0].steps| ensures !s.ticks[0].steps[j].NodesBecome? {}
      }
    }
  }

  lemma {:induction false} OthersAndJobs(w: World, steps: seq<EnvStep>)
    ensures var v := EnvRun(w, steps);
      && v.jobs.Keys <= w.jobs.Keys && v.log == w.log
      && ((forall j :: 0 <= j < |steps| ==> !steps[j].JobGone?) ==> v.jobs.Keys == w.jobs.Keys)
    decreases |steps|
  {
    if steps != [] {
      var v := EnvStepped(w, steps[0]);
      OthersAndJobs(v, steps[1..]);
      if forall j :: 0 <= j < |steps| ==> !steps[j].JobGone? {
        assert !steps[0].JobGone?;
        forall j | 0 <= j < |steps[1..]| ensures !steps[1..][j].JobGone? { assert steps[1..][j] == steps[j + 1]; }
      }
    }
  }

  ghost predicate Follows(s: Sys, t: Sys)
  {
    && s.w.log <= t.w.log && t.order == s.order && (JobsLeftAlone(s.ticks) ==> JobsLeftAlone(t.ticks))
    && (NodesStay(s.ticks) ==> NodesStay(t.ticks) && t.w.nodes == s.w.nodes) && StatusStays(s.w, t.w)
  }

  /** Job names before and after one request. */
  lemma JobsAfterCall(s: Sys, q: Request)
    requires !q.UpdateStatus?
    ensures var a := Call(s, q); var before, after := s.w.jobs.Keys, a.s.w.jobs.Keys;
      && Follows(s, a.s) && a.s.cr == s.cr
      && (!q.CreateJob? ==> after <= before)
      && (!q.CreateJob? && !q.DeleteJob? && JobsLeftAlone(s.ticks) ==> after == before)
      && (q.CreateJob? && JobsLeftAlone(s.ticks) ==> before <= after <= before + {q.job})
      && (q.CreateJob? && (a.reply == Done || a.reply == Fails(AlreadyExists)) ==> q.job in after)
      && (q.DeleteJob? && JobsLeftAlone(s.ticks) ==> before - {q.job} <= after)
      && (q.DeleteJob? && (a.reply == Done || a.reply == Fails(NotFound)) ==> q.job !in after)
      && (q.CreateJob? || q.DeleteJob? ==> a.reply.Silence? || a.reply.Fails? || a.reply == Done)
      && (!a.reply.Silence? ==> a.s.w.log[..|s.w.log|] == s.w.log && |a.s.w.log| == |s.w.log| + 1)
      && (!a.reply.Silence? ==> a.s.w.log[|s.w.log|].request == q && a.s.w.log[|s.w.log|].reply == a.reply)
  {
    hide EnvRun, StatusStays;
    NodesAfterCall(s, q);
    if s.ticks != [] {
      OthersAndJobs(s.w, s.ticks[0].steps);
      if JobsLeftAlone(s.ticks) {
        forall j | 0 <= j < |s.ticks[0].steps| ensures !s.ticks[0].steps[j].JobGone? {}
      }
    }
  }

  /** Deleting a job and its pods: afterwards it is gone, and no other job is affected. */
  ghost predicate Swept(s: Sys, t: Sys)
  {
    Follows(s, t) && t.cr == s.cr && t.w.jobs.Keys <= s.w.jobs.Keys
  }

  lemma {:induction false} PodsAreSwept(s: Sys, pods: seq<Pod>)
    ensures var r := DeletePods(s, pods);
      Swept(s, r.s) && (JobsLeftAlone(s.ticks) ==> r.s.w.jobs.Keys == s.w.jobs.Keys)
    decreases |pods|
  {
    hide Call;
    if pods != [] {
      var q := DeletePod(pods[0].name);
      JobsAfterCall(s, q);
      PodsAreSwept(Call(s, q).s, pods[1..]);
    }
  }

  lemma JobIsRemoved(s: Sys, job: string)
    ensures var r := RemoveJob(s, job);
      && Swept(s, r.s)
      && (r.flow == OK ==> job !in r.s.w.jobs)
      && (JobsLeftAlone(s.ticks) ==> s.w.jobs.Keys - {job} <= r.s.w.jobs.Keys)
  {
    hide Call;
    var gone := Call(s, DeleteJob(job));
    JobsAfterCall(s, DeleteJob(job));
    JobsAfterCall(gone.s, ListJobPods(job));
    var listed := Call(gone.s, ListJobPods(job));
    if listed.reply.PodsAre? { PodsAreSwept(listed.s, listed.reply.pods); }
  }

  /** As many pods succeeded as were asked for, and none failed. */
  predicate CompletedCleanly(job: Job)
  {
    job.failed == 0 && job.succeeded == job.completions
  }

  /** In the log from `from` on, this job was looked at and had completed without a failure. */
  predicate SeenDone(log: seq<Entry>, from: nat, job: string)
  {
    exists i :: from <= i < |log| && log[i].request == GetJob(job)
      && log[i].reply.JobIs? && CompletedCleanly(log[i].reply.job)
  }

  lemma SeenDoneStays(log: seq<Entry>, more: seq<Entry>, from: nat, earlier: nat, job: string)
    requires log <= more && earlier <= from && SeenDone(log, from, job)
    ensures SeenDone(more, earlier, job)
  {
    var i :| from <= i < |log| && log[i].request == GetJob(job)
      && log[i].reply.JobIs? && CompletedCleanly(log[i].reply.job);
    assert more[i] == log[i];
  }

  lemma WaitingSees(s: Sys, job: string)
    ensures var r := WaitForJob(s, job);
      && Swept(s, r.s)
      && (r.flow == OK ==> SeenDone(r.s.w.log, |s.w.log|, job))
      && (JobsLeftAlone(s.ticks) ==> r.s.w.jobs.Keys == s.w.jobs.Keys)
  {
    hide Call;
    JobsAfterCall(s, GetJob(job));
    AnswersFit(s, GetJob(job));
  }

  // ---- uninstalling nodes ----------------------------------------------------------------------

  /** A listing of the nodes with this label, in the log from `from` on. */
  predicate Listed(log: seq<Entry>, from: nat, key: string, names: seq<string>)
  {
    exists i :: from <= i < |log| && log[i].request == ListNodes(key) && log[i].reply == NodesAre(names)
  }

  lemma LabelIsListed(s: Sys, key: string)
    ensures var r := NodesWithLabel(s, key);
      Follows(s, r.s) && r.s.cr == s.cr && (r.flow == OK ==> Listed(r.s.w.log, |s.w.log|, key, r.nodes))
      && (JobsLeftAlone(s.ticks) ==> r.s.w.jobs.Keys == s.w.jobs.Keys)
  {
    hide Call;
    JobsAfterCall(s, ListNodes(key));
    ListNodesReplies(s, key);
  }

  lemma ListNodesReplies(s: Sys, key: string)
    ensures var reply := Call(s, ListNodes(key)).reply;
      reply.Silence? || (reply.Fails? && reply.error.Unexpected?) || reply.NodesAre?
  {
  }

  /** These are the names in a client listing and a target listing, in the log from `from` on. */
  ghost predicate Union(log: seq<Entry>, from: nat, nodes: set<string>)
  {
    exists clients, targets ::
      (nodes == Names(clients) + Names(targets) && Listed(log, from, CLIENT_LABEL, clients) && Listed(log, from, TARGET_LABEL, targets))
  }

  lemma UnionIsListed(s: Sys)
    ensures var r := ClusterNodes(s);
      && Follows(s, r.s) && r.s.cr == s.cr
      && (JobsLeftAlone(s.ticks) ==> r.s.w.jobs.Keys == s.w.jobs.Keys)
      && (r.flow == OK ==> Union(r.s.w.log, |s.w.log|, r.nodes))
  {
    hide NodesWithLabel;
    LabelIsListed(s, CLIENT_LABEL);
    var clients := NodesWithLabel(s, CLIENT_LABEL);
    LabelIsListed(clients.s, TARGET_LABEL);
    var targets := NodesWithLabel(clients.s, TARGET_LABEL);
    if clients.flow == OK && targets.flow == OK {
      ListingStays(clients.s.w.log, targets.s.w.log, |s.w.log|, |s.w.log|, CLIENT_LABEL, clients.nodes);
      ListingStays(targets.s.w.log, targets.s.w.log, |clients.s.w.log|, |s.w.log|, TARGET_LABEL, targets.nodes);
    }
  }

  lemma ListingStays(log: seq<Entry>, more: seq<Entry>, from: nat, earlier: nat, key: string, names: seq<string>)
    requires log <= more && earlier <= from && Listed(log, from, key, names)
    ensures Listed(more, earlier, key, names)
  {
    var i :| from <= i < |log| && log[i].request == ListNodes(key) && log[i].reply == NodesAre(names);
    assert more[i] == log[i];
  }

  lemma {:induction false} JobsAreStarted(s: Sys, nodes: seq<string>)
    ensures Follows(s, StartUninstallJobs(s, nodes).s)
    decreases |nodes|
  {
    hide Call;
    if nodes != [] {
      JobsAfterCall(s, CreateJob(UninstallJob(nodes[0])));
      JobsAreStarted(StartJob(s, UninstallJob(nodes[0])).s, nodes[1..]);
    }
  }

  lemma {:induction false} JobsAreAwaited(s: Sys, nodes: seq<string>)
    ensures var r := AwaitUninstallJobs(s, nodes);
      Follows(s, r.s) && (r.flow == OK ==> forall n :: n in nodes ==> SeenDone(r.s.w.log, |s.w.log|, UninstallJob(n)))
    decreases |nodes|
  {
    hide WaitForJob;
    if nodes != [] {
      var one := WaitForJob(s, UninstallJob(nodes[0]));
      WaitingSees(s, UninstallJob(nodes[0]));
      JobsAreAwaited(one.s, nodes[1..]);
      var r := AwaitUninstallJobs(s, nodes);
      if r.flow == OK {
        forall n | n in nodes ensures SeenDone(r.s.w.log, |s.w.log|, UninstallJob(n)) {
          if n == nodes[0] {
            SeenDoneStays(one.s.w.log, r.s.w.log, |s.w.log|, |s.w.log|, UninstallJob(n));
          } else {
            assert n in nodes[1..];
            SeenDoneStays(r.s.w.log, r.s.w.log, |one.s.w.log|, |s.w.log|, UninstallJob(n));
          }
        }
      }
    }
  }

  lemma {:induction false} JobsAreDeleted(s: Sys, nodes: seq<string>)
    ensures var r := DeleteUninstallJobs(s, nodes);
      Swept(s, r.s) && (r.flow == OK ==> forall n :: n in nodes ==> UninstallJob(n) !in r.s.w.jobs)
    decreases |nodes|
  {
    hide RemoveJob;
    if nodes != [] {
      var one := RemoveJob(s, UninstallJob(nodes[0]));
      JobIsRemoved(s, UninstallJob(nodes[0]));
      JobsAreDeleted(one.s, nodes[1..]);
    }
  }

  /** uninstallClusterNodes succeeds only if the job of every node of the duplicate-free union of the two
      listings was seen completed without a failure, creation errors notwithstanding; the jobs are gone then. */
  lemma EveryNodeIsUninstalled(s: Sys)
    requires Enumerates(s.order(ClusterNodes(s).nodes), ClusterNodes(s).nodes)
    requires UninstallClusterNodes(s).flow == OK
    ensures var r := UninstallClusterNodes(s); var from := |s.w.log|;
      exists clients, targets ::
        && Listed(r.s.w.log, from, "nvmesh.excelero.com/nvmesh-client", clients)
        && Listed(r.s.w.log, from, "nvmesh.excelero.com/nvmesh-target", targets)
        && forall n :: n in clients || n in targets ==>
             SeenDone(r.s.w.log, from, UninstallJob(n)) && UninstallJob(n) !in r.s.w.jobs
  {
    hide ClusterNodes, StartUninstallJobs, AwaitUninstallJobs, DeleteUninstallJobs, SeenDone, Listed, UninstallJob, JobsLeftAlone,
      NodesStay, StatusStays;
    var listed := ClusterNodes(s);
    UnionIsListed(s);
    var nodes := s.order(listed.nodes);
    var started := StartUninstallJobs(listed.s, nodes);
    JobsAreStarted(listed.s, nodes);
    var waited := AwaitUninstallJobs(started.s, nodes);
    JobsAreAwaited(started.s, nodes);
    var r := DeleteUninstallJobs(waited.s, nodes);
    JobsAreDeleted(waited.s, nodes);
    var clients, targets :| listed.nodes == Names(clients) + Names(targets)
      && Listed(listed.s.w.log, |s.w.log|, CLIENT_LABEL, clients) && Listed(listed.s.w.log, |s.w.log|, TARGET_LABEL, targets);
    ListingStays(listed.s.w.log, r.s.w.log, |s.w.log|, |s.w.log|, CLIENT_LABEL, clients);
    ListingStays(listed.s.w.log, r.s.w.log, |s.w.log|, |s.w.log|, TARGET_LABEL, targets);
    forall n | n in clients || n in targets
      ensures SeenDone(r.s.w.log, |s.w.log|, UninstallJob(n)) && UninstallJob(n) !in r.s.w.jobs
    {
      assert n in listed.nodes && n in nodes;
      SeenDoneStays(waited.s.w.log, r.s.w.log, |started.s.w.log|, |s.w.log|, UninstallJob(n));
    }
  }
}
