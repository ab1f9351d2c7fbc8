/** The actions of a cycle, request by request: dropping stale statuses, taking a finished action off the list, storing
    the progress of one that waits, and what the five stages of collect-logs have done when they are finished. */
module ActionEffects {
  import opened Basics
  import opened Strings
  import opened Kube
  import opened Jobs
  import opened Tasks
  import opened StatusUpdater
  import opened Uninstall
  import opened Finalizer
  import opened CollectLogs
  import opened Reconciler
  import opened NodeJobs
  import opened ActionPass
  import opened StageEffects
  import opened Reporting

  // ---- the list of actions -----------------------------------------------------------------------

  /** The status without the tasks of actions the spec does not ask for. */
  ghost predicate StaleDropped(cr: Cr, told: Cr)
  {
    && told == cr.(status := told.status) && told.status.conditions == cr.status.conditions
    && forall a ::
         && (a in told.status.actions <==>
               a in cr.status.actions && exists i :: 0 <= i < |cr.spec.actions| && cr.spec.actions[i].name == a)
         && (a in told.status.actions ==> told.status.actions[a] == cr.status.actions[a])
  }

  /** If every recorded action is still asked for, nothing is written. Otherwise the status without the others is stored,
      and the cycle starts over at once, stored or not. */
  lemma StaleGoExactly(s: Sys)
    ensures var r := DropStale(s);
      if forall a :: a in s.cr.status.actions ==> exists i :: 0 <= i < |s.cr.spec.actions| && s.cr.spec.actions[i].name == a
      then r == Ran(s, OK)
      else
        && s.w.log <= r.s.w.log && (r.flow.Killed? || r.flow == Return(Result(true, 0), None))
        && exists told :: StaleDropped(s.cr, told) && StatusAttempts(Since(s, r.s), s.cr, told.status)
  {
    hide PushStatus, StatusAttempts;
    var live := LiveStatuses(s.cr);
    if forall a :: a in s.cr.status.actions ==> exists i :: 0 <= i < |s.cr.spec.actions| && s.cr.spec.actions[i].name == a {
      forall a | a in s.cr.status.actions ensures Requested(s.cr.spec, a) {}
      assert live == s.cr.status.actions;
    } else {
      var gone :| gone in s.cr.status.actions && !Requested(s.cr.spec, gone);
      assert gone !in live;
      var t := WithStatus(s, s.cr.status.(actions := live));
      StatusIsTriedFiveTimes(t);
      SameAttempts(Since(t, PushStatus(t).s), t.cr, s.cr, t.cr.status);
      assert StaleDropped(s.cr, t.cr);
    }
  }

  /** One action's turn. An unknown one is an error. One that is done is taken off the list at its index, a panic if there is
      no such index; that write is made once, and its failure forgotten. One that waits has its status stored; one that
      failed has not. */
  lemma TurnExactly(s: Sys, action: Action, index: nat)
    ensures var r := TurnOf(s, action, index); var c := Collect(s, "collect-logs"); var list := c.r.s.cr.spec.actions;
      && (action.name != "collect-logs" ==> r == Ran(s, Fail(UnknownAction)))
      && (c.remove <==> c.r.flow == OK)
      && (action.name == "collect-logs" && c.remove && index >= |list| ==> r == Ran(c.r.s, Killed))
      && (action.name == "collect-logs" && c.remove && index < |list| ==>
            exists told: Cr, t: Sys ::
              && t == c.r.s.(cr := told) && told == c.r.s.cr.(spec := c.r.s.cr.spec.(actions := told.spec.actions))
              && told.spec.actions == list[..index] + list[index + 1..]
              && var a := Call(t, UpdateCr(told));
                 && r.s == (if a.reply.CrIs? then a.s.(cr := a.reply.cr) else a.s)
                 && r.flow == (if a.reply.Silence? then Killed else OK))
      && (action.name == "collect-logs" && c.r.flow.Return? && c.r.flow.result.requeue ==>
            && c.r.s.w.log <= r.s.w.log && (r.flow.Killed? || r.flow == c.r.flow)
            && StatusAttempts(Since(c.r.s, r.s), c.r.s.cr, c.r.s.cr.status))
      && (action.name == "collect-logs" && (c.r.flow.Killed? || (c.r.flow != OK && !c.r.flow.result.requeue)) ==> r == c.r)
  {
    hide StartCollectors, CollectOnNodes, PushStatus, StatusAttempts, Call;
    var c := Collect(s, "collect-logs");
    StatusIsTriedFiveTimes(c.r.s);
    var list := c.r.s.cr.spec.actions;
    if index < |list| {
      var told := c.r.s.cr.(spec := c.r.s.cr.spec.(actions := list[..index] + list[index + 1..]));
      var t := c.r.s.(cr := told);
      AnswersFit(t, UpdateCr(told));
    }
  }

  // ---- collect-logs ------------------------------------------------------------------------------

  predicate IsFinished(tasks: TaskMap, task: string)
  {
    task in tasks && tasks[task] == "TaskFinished"
  }

  /** The action's tasks of this copy. */
  function Recorded(s: Sys, action: string): TaskMap
  {
    if action in s.cr.status.actions then s.cr.status.actions[action] else map[]
  }

  /** A stage from s to t that succeeded: its task is recorded as finished, the other tasks are as they were. */
  ghost predicate StageOver(s: Sys, t: Sys, action: string, task: string)
  {
    && s.w.log <= t.w.log && t.order == s.order
    && Recorded(t, action) == Recorded(s, action)[task := "TaskFinished"]
  }

  lemma SameRecord(s: Sys, action: string, task: string, body: Sys)
    requires body.cr == WithTask(WithTouch(s, action), action, task, TASK_STARTED).cr && body.order == s.order && s.w.log <= body.w.log
    ensures StageOver(s, WithTask(body, action, task, TASK_FINISHED), action, task)
  {
  }

  lemma PassedOver(s: Sys, action: string, task: string)
    requires Finished(TasksOf(s.cr.status, action), task)
    ensures StageOver(s, WithTouch(s, action), action, task)
  {
    assert Recorded(s, action)[task := TASK_FINISHED] == Recorded(s, action);
  }

  lemma JobStageDoes(s: Sys, action: string, task: string, job: string)
    requires JobStage(s, action, task, job).flow == OK
    ensures var t := JobStage(s, action, task, job).s;
      && StageOver(s, t, action, task)
      && (!IsFinished(Recorded(s, action), task) ==> Got(t.w.log, |s.w.log|, CreateJob(job), {Done, Fails(AlreadyExists)}))
  {
    hide StartJob, Got, StageOver;
    var started := WithTask(WithTouch(s, action), action, task, TASK_STARTED);
    JobIsStarted(started, job);
    JobKeepsCopy(started, job);
    StartGrows(started, job);
    if Finished(TasksOf(s.cr.status, action), task) { PassedOver(s, action, task); } else {
      SameRecord(s, action, task, StartJob(started, job).s);
    }
  }

  lemma StartGrows(s: Sys, job: string)
    ensures s.w.log <= StartJob(s, job).s.w.log && s.w.log <= WaitForJob(s, job).s.w.log
    ensures WaitForJob(s, job).s.order == s.order && StartJob(s, job).s.order == s.order
  {
    hide Answer, Effect, EnvRun, StateOf;
    OneEntry(s, CreateJob(job));
    OneEntry(s, GetJob(job));
  }

  // ---- the loops over the nodes ------------------------------------------------------------------

  function CollectJob(node: string): string
  {
    "collect-logs-" + Sanitize(node)
  }

  ghost predicate StartedAll(log: seq<Entry>, from: nat, nodes: set<string>)
  {
    forall n :: n in nodes ==> Got(log, from, CreateJob(CollectJob(n)), {Done, Fails(AlreadyExists)})
  }

  ghost predicate DoneAll(log: seq<Entry>, from: nat, nodes: set<string>)
  {
    forall n :: n in nodes ==> SeenDone(log, from, CollectJob(n))
  }

  ghost predicate SweptAll(log: seq<Entry>, from: nat, nodes: set<string>)
  {
    forall n :: n in nodes ==> JobSwept(log, from, CollectJob(n))
  }

  /** From s to t only requests. */
  ghost predicate Requests(s: Sys, t: Sys)
  {
    s.w.log <= t.w.log && t.cr == s.cr && t.order == s.order
  }

  lemma {:induction false} LoopStarts(s: Sys, nodes: seq<string>)
    ensures var r := StartLogJobs(s, nodes);
      Requests(s, r.s) && (r.flow == OK ==> StartedAll(r.s.w.log, |s.w.log|, Names(nodes)))
    decreases |nodes|
  {
    hide StartJob, Got;
    if nodes != [] {
      var job := LogsJob(nodes[0]);
      var one := StartJob(s, job);
      JobIsStarted(s, job);
      JobKeepsCopy(s, job);
      StartGrows(s, job);
      if one.flow == OK {
        LoopStarts(one.s, nodes[1..]);
        var r := StartLogJobs(one.s, nodes[1..]);
        if r.flow == OK {
          forall n | n in Names(nodes) ensures Got(r.s.w.log, |s.w.log|, CreateJob(CollectJob(n)), {Done, Fails(AlreadyExists)}) {
            if n == nodes[0] {
              GotStays(one.s.w.log, r.s.w.log, |s.w.log|, |s.w.log|, CreateJob(CollectJob(n)), {Done, Fails(AlreadyExists)});
            } else {
              assert n in Names(nodes[1..]);
              GotStays(r.s.w.log, r.s.w.log, |one.s.w.log|, |s.w.log|, CreateJob(CollectJob(n)), {Done, Fails(AlreadyExists)});
            }
          }
        }
      }
    }
  }

  lemma {:induction false} LoopAwaits(s: Sys, nodes: seq<string>)
    ensures var r := AwaitLogJobs(s, nodes);
      Requests(s, r.s) && (r.flow == OK ==> DoneAll(r.s.w.log, |s.w.log|, Names(nodes)))
    decreases |nodes|
  {
    hide WaitForJob, SeenDone;
    if nodes != [] {
      var job := LogsJob(nodes[0]);
      var one := WaitForJob(s, job);
      WaitingSees(s, job);
      JobKeepsCopy(s, job);
      StartGrows(s, job);
      if one.flow == OK {
        LoopAwaits(one.s, nodes[1..]);
        var r := AwaitLogJobs(one.s, nodes[1..]);
        if r.flow == OK {
          forall n | n in Names(nodes) ensures SeenDone(r.s.w.log, |s.w.log|, CollectJob(n)) {
            if n == nodes[0] {
              SeenDoneStays(one.s.w.log, r.s.w.log, |s.w.log|, |s.w.log|, CollectJob(n));
            } else {
              assert n in Names(nodes[1..]);
              SeenDoneStays(r.s.w.log, r.s.w.log, |one.s.w.log|, |s.w.log|, CollectJob(n));
            }
          }
        }
      }
    }
  }

  lemma SweptStays(log: seq<Entry>, more: seq<Entry>, from: nat, earlier: nat, job: string)
    requires log <= more && earlier <= from && JobSwept(log, from, job)
    ensures JobSwept(more, earlier, job)
  {
    hide Got;
    GotStays(log, more, from, earlier, DeleteJob(job), {Done, Fails(NotFound)});
    var i :| from <= i < |log| && log[i].request == ListJobPods(job)
      && (log[i].reply == Fails(NotFound)
          || (log[i].reply.PodsAre?
              && forall p :: p in log[i].reply.pods ==> Got(log, i, DeletePod(p.name), {Done, Fails(NotFound)})));
    assert more[i] == log[i];
    if log[i].reply.PodsAre? {
      forall p | p in log[i].reply.pods ensures Got(more, i, DeletePod(p.name), {Done, Fails(NotFound)}) {
        GotStays(log, more, i, i, DeletePod(p.name), {Done, Fails(NotFound)});
      }
    }
  }

  lemma {:induction false} PodsKeepOrder(s: Sys, pods: seq<Pod>)
    ensures DeletePods(s, pods).s.order == s.order
    ensures var flow := DeletePods(s, pods).flow; flow.Return? && flow.err.Some? ==> flow.err.value != NotFound
    decreases |pods|
  {
    hide EnvRun, Effect, Answer;
    if pods != [] { PodsKeepOrder(Call(s, DeletePod(pods[0].name)).s, pods[1..]); }
  }

  /** Deleting a job never reports that something was not found. */
  lemma RemovalRequests(s: Sys, job: string)
    ensures Requests(s, RemoveJob(s, job).s)
    ensures var flow := RemoveJob(s, job).flow; flow.Return? && flow.err.Some? ==> flow.err.value != NotFound
  {
    hide EnvRun, Effect, Answer, DeletePods, JobSwept;
    JobIsSwept(s, job);
    RemovalKeepsCopy(s, job);
    var gone := Call(s, DeleteJob(job)).s;
    var listed := Call(gone, ListJobPods(job));
    if listed.reply.PodsAre? { PodsKeepOrder(listed.s, listed.reply.pods); }
  }

  lemma {:induction false} LoopSweeps(s: Sys, nodes: seq<string>)
    ensures var r := DeleteLogJobs(s, nodes);
      && Requests(s, r.s) && (r.flow == OK ==> SweptAll(r.s.w.log, |s.w.log|, Names(nodes)))
      && (r.flow.Killed? || r.flow == OK || (r.flow.err.Some? && r.flow.err.value != NotFound))
    decreases |nodes|
  {
    hide RemoveJob, JobSwept;
    if nodes != [] {
      var job := LogsJob(nodes[0]);
      var one := RemoveJob(s, job);
      JobIsSwept(s, job);
      RemovalRequests(s, job);
      JobPlain(s, job);
      if one.flow == OK {
        LoopSweeps(one.s, nodes[1..]);
        var r := DeleteLogJobs(one.s, nodes[1..]);
        if r.flow == OK {
          forall n | n in Names(nodes) ensures JobSwept(r.s.w.log, |s.w.log|, CollectJob(n)) {
            if n == nodes[0] {
              SweptStays(one.s.w.log, r.s.w.log, |s.w.log|, |s.w.log|, CollectJob(n));
            } else {
              assert n in Names(nodes[1..]);
              SweptStays(r.s.w.log, r.s.w.log, |one.s.w.log|, |s.w.log|, CollectJob(n));
            }
          }
        }
      }
    }
  }

  // ---- the stages over the nodes -----------------------------------------------------------------

  lemma CreateDoes(s: Sys, action: string, nodes: seq<string>)
    requires CreateStage(s, action, nodes).flow == OK
    ensures var t := CreateStage(s, action, nodes).s;
      && StageOver(s, t, action, "CollectLogs")
      && (!IsFinished(Recorded(s, action), "CollectLogs") ==> StartedAll(t.w.log, |s.w.log|, Names(nodes)))
  {
    hide StartLogJobs, StageOver, StartedAll;
    var started := WithTask(WithTouch(s, action), action, COLLECT_LOGS, TASK_STARTED);
    LoopStarts(started, nodes);
    if Finished(TasksOf(s.cr.status, action), COLLECT_LOGS) { PassedOver(s, action, COLLECT_LOGS); } else {
      SameRecord(s, action, COLLECT_LOGS, StartLogJobs(started, nodes).s);
    }
  }

  lemma AwaitSees(s: Sys, nodes: seq<string>)
    ensures var r := AwaitJobs(s, nodes); var log, from := r.s.w.log, |s.w.log|;
      && Requests(s, r.s)
      && (r.flow == OK ==>
            SeenDone(log, from, "collect-db") && SeenDone(log, from, "collect-config-maps") && DoneAll(log, from, Names(nodes)))
  {
    hide WaitForJob, AwaitLogJobs, SeenDone;
    var db := WaitForJob(s, DB_JOB);
    WaitingSees(s, DB_JOB);
    JobKeepsCopy(s, DB_JOB);
    StartGrows(s, DB_JOB);
    var maps := WaitForJob(db.s, CONFIG_MAPS_JOB);
    WaitingSees(db.s, CONFIG_MAPS_JOB);
    JobKeepsCopy(db.s, CONFIG_MAPS_JOB);
    StartGrows(db.s, CONFIG_MAPS_JOB);
    LoopAwaits(maps.s, nodes);
    var r := AwaitLogJobs(maps.s, nodes);
    if db.flow == OK && maps.flow == OK && r.flow == OK {
      SeenDoneStays(db.s.w.log, r.s.w.log, |s.w.log|, |s.w.log|, DB_JOB);
      SeenDoneStays(maps.s.w.log, r.s.w.log, |db.s.w.log|, |s.w.log|, CONFIG_MAPS_JOB);
      forall n | n in Names(nodes) ensures SeenDone(r.s.w.log, |s.w.log|, CollectJob(n)) {
        SeenDoneStays(r.s.w.log, r.s.w.log, |maps.s.w.log|, |s.w.log|, CollectJob(n));
      }
    }
  }

  lemma WaitDoes(s: Sys, action: string, nodes: seq<string>)
    requires WaitStage(s, action, nodes).flow == OK
    ensures var t := WaitStage(s, action, nodes).s; var log, from := t.w.log, |s.w.log|;
      && StageOver(s, t, action, "waitForJobsToFinish")
      && (!IsFinished(Recorded(s, action), "waitForJobsToFinish") ==>
            SeenDone(log, from, "collect-db") && SeenDone(log, from, "collect-config-maps") && DoneAll(log, from, Names(nodes)))
  {
    hide AwaitJobs, StageOver, SeenDone, DoneAll;
    var started := WithTask(WithTouch(s, action), action, WAIT_FOR_JOBS, TASK_STARTED);
    AwaitSees(started, nodes);
    if Finished(TasksOf(s.cr.status, action), WAIT_FOR_JOBS) { PassedOver(s, action, WAIT_FOR_JOBS); } else {
      SameRecord(s, action, WAIT_FOR_JOBS, AwaitJobs(started, nodes).s);
    }
  }

  lemma DeleteSweeps(s: Sys, nodes: seq<string>)
    ensures var r := DeleteJobs(s, nodes); var log, from := r.s.w.log, |s.w.log|;
      && Requests(s, r.s)
      && (r.flow.Killed? || r.flow == OK || (r.flow.err.Some? && r.flow.err.value != NotFound))
      && (r.flow == OK ==>
            JobSwept(log, from, "collect-db") && JobSwept(log, from, "collect-config-maps") && SweptAll(log, from, Names(nodes)))
  {
    hide RemoveJob, DeleteLogJobs, JobSwept;
    var db := RemoveJob(s, DB_JOB);
    JobIsSwept(s, DB_JOB);
    JobPlain(s, DB_JOB);
    RemovalRequests(s, DB_JOB);
    var maps := RemoveJob(db.s, CONFIG_MAPS_JOB);
    JobIsSwept(db.s, CONFIG_MAPS_JOB);
    JobPlain(db.s, CONFIG_MAPS_JOB);
    RemovalRequests(db.s, CONFIG_MAPS_JOB);
    LoopSweeps(maps.s, nodes);
    var r := DeleteLogJobs(maps.s, nodes);
    if db.flow == OK && maps.flow == OK && r.flow == OK {
      SweptStays(db.s.w.log, r.s.w.log, |s.w.log|, |s.w.log|, DB_JOB);
      SweptStays(maps.s.w.log, r.s.w.log, |db.s.w.log|, |s.w.log|, CONFIG_MAPS_JOB);
      forall n | n in Names(nodes) ensures JobSwept(r.s.w.log, |s.w.log|, CollectJob(n)) {
        SweptStays(r.s.w.log, r.s.w.log, |maps.s.w.log|, |s.w.log|, CollectJob(n));
      }
    }
  }

  lemma DeleteDoes(s: Sys, action: string, nodes: seq<string>)
    requires DeleteStage(s, action, nodes).flow == OK
    ensures var t := DeleteStage(s, action, nodes).s; var log, from := t.w.log, |s.w.log|;
      && StageOver(s, t, action, "DeleteJobs")
      && (!IsFinished(Recorded(s, action), "DeleteJobs") ==>
            JobSwept(log, from, "collect-db") && JobSwept(log, from, "collect-config-maps") && SweptAll(log, from, Names(nodes)))
  {
    hide DeleteJobs, StageOver, JobSwept, SweptAll;
    var started := WithTask(WithTouch(s, action), action, DELETE_JOBS, TASK_STARTED);
    DeleteSweeps(started, nodes);
    if Finished(TasksOf(s.cr.status, action), DELETE_JOBS) { PassedOver(s, action, DELETE_JOBS); } else {
      SameRecord(s, action, DELETE_JOBS, DeleteJobs(started, nodes).s);
    }
  }

  // ---- the whole action --------------------------------------------------------------------------

  /** These are the names in a client, a target and a management listing, in the log from `from` on. */
  ghost predicate LogListing(log: seq<Entry>, from: nat, nodes: set<string>)
  {
    exists clients, targets, servers ::
      && Listed(log, from, "nvmesh.excelero.com/nvmesh-client", clients)
      && Listed(log, from, "nvmesh.excelero.com/nvmesh-target", targets)
      && Listed(log, from, "nvmesh.excelero.com/nvmesh-management", servers)
      && nodes == Names(clients + targets + servers)
  }

  lemma LogNodesListed(s: Sys)
    ensures var r := LogNodes(s); Requests(s, r.s) && (r.flow == OK ==> LogListing(r.s.w.log, |s.w.log|, r.nodes))
  {
    hide NodesWithLabel, Listed;
    LabelIsListed(s, CLIENT_LABEL);
    var clients := NodesWithLabel(s, CLIENT_LABEL);
    LabelIsListed(clients.s, TARGET_LABEL);
    var targets := NodesWithLabel(clients.s, TARGET_LABEL);
    LabelIsListed(targets.s, MGMT_LABEL);
    var servers := NodesWithLabel(targets.s, MGMT_LABEL);
    if clients.flow == OK && targets.flow == OK && servers.flow == OK {
      var log := servers.s.w.log;
      ListingStays(clients.s.w.log, log, |s.w.log|, |s.w.log|, CLIENT_LABEL, clients.nodes);
      ListingStays(targets.s.w.log, log, |clients.s.w.log|, |s.w.log|, TARGET_LABEL, targets.nodes);
      ListingStays(log, log, |targets.s.w.log|, |s.w.log|, MGMT_LABEL, servers.nodes);
      assert LogNodes(s).nodes == Names(clients.nodes + targets.nodes + servers.nodes);
    }
  }

  /** What the five stages of the action stand for, in the log from `from` on, but for those recorded as finished. */
  ghost predicate Collected(log: seq<Entry>, from: nat, tasks: TaskMap, nodes: set<string>)
  {
    && (!IsFinished(tasks, "CollectDB") ==> Got(log, from, CreateJob("collect-db"), {Done, Fails(AlreadyExists)}))
    && (!IsFinished(tasks, "CollectConfigMaps") ==>
          Got(log, from, CreateJob("collect-config-maps"), {Done, Fails(AlreadyExists)}))
    && (!IsFinished(tasks, "CollectLogs") ==> StartedAll(log, from, nodes))
    && (!IsFinished(tasks, "waitForJobsToFinish") ==>
          SeenDone(log, from, "collect-db") && SeenDone(log, from, "collect-config-maps") && DoneAll(log, from, nodes))
    && (!IsFinished(tasks, "DeleteJobs") ==>
          JobSwept(log, from, "collect-db") && JobSwept(log, from, "collect-config-maps") && SweptAll(log, from, nodes))
  }

  lemma TaskNamesApart()
    ensures COLLECT_DB[7] == 'D' && COLLECT_CONFIG_MAPS[7] == 'C' && COLLECT_LOGS[7] == 'L'
    ensures WAIT_FOR_JOBS[0] == 'w' && DELETE_JOBS[0] == 'D' && ACTION_COMPLETE[0] == 'A' && COLLECT_DB[0] == 'C'
    ensures COLLECT_CONFIG_MAPS[0] == 'C' && COLLECT_LOGS[0] == 'C'
  {
  }

  lemma StagesCollect(s: Sys, action: string, nodes: seq<string>)
    requires NodeStages(s, action, nodes).flow == OK
    ensures var t := NodeStages(s, action, nodes).s; var log, from := t.w.log, |s.w.log|; var tasks := Recorded(s, action);
      && s.w.log <= log && t.order == s.order
      && Recorded(t, action) == tasks["CollectLogs" := "TaskFinished"]["waitForJobsToFinish" := "TaskFinished"]["DeleteJobs" := "TaskFinished"]
      && (!IsFinished(tasks, "CollectLogs") ==> StartedAll(log, from, Names(nodes)))
      && (!IsFinished(tasks, "waitForJobsToFinish") ==>
            SeenDone(log, from, "collect-db") && SeenDone(log, from, "collect-config-maps") && DoneAll(log, from, Names(nodes)))
      && (!IsFinished(tasks, "DeleteJobs") ==>
            JobSwept(log, from, "collect-db") && JobSwept(log, from, "collect-config-maps") && SweptAll(log, from, Names(nodes)))
  {
    hide CreateStage, WaitStage, DeleteStage, StartedAll, SeenDone, DoneAll, JobSwept, SweptAll;
    TaskNamesApart();
    var created := CreateStage(s, action, nodes).s;
    CreateDoes(s, action, nodes);
    var waited := WaitStage(created, action, nodes).s;
    WaitDoes(created, action, nodes);
    var swept := DeleteStage(waited, action, nodes).s;
    DeleteDoes(waited, action, nodes);
    var log, tasks := swept.w.log, Recorded(s, action);
    if !IsFinished(tasks, "CollectLogs") { StartedLater(created.w.log, log, |s.w.log|, |s.w.log|, Names(nodes)); }
    if !IsFinished(tasks, "waitForJobsToFinish") { DoneLater(waited.w.log, log, |created.w.log|, |s.w.log|, Names(nodes)); }
    if !IsFinished(tasks, "DeleteJobs") { SweptLater(log, log, |waited.w.log|, |s.w.log|, Names(nodes)); }
  }

  lemma StartedLater(log: seq<Entry>, more: seq<Entry>, from: nat, earlier: nat, nodes: set<string>)
    requires log <= more && earlier <= from && StartedAll(log, from, nodes)
    ensures StartedAll(more, earlier, nodes)
  {
    hide Got;
    forall n | n in nodes ensures Got(more, earlier, CreateJob(CollectJob(n)), {Done, Fails(AlreadyExists)}) {
      GotStays(log, more, from, earlier, CreateJob(CollectJob(n)), {Done, Fails(AlreadyExists)});
    }
  }

  lemma DoneLater(log: seq<Entry>, more: seq<Entry>, from: nat, earlier: nat, nodes: set<string>)
    requires log <= more && earlier <= from && DoneAll(log, from, nodes)
    requires SeenDone(log, from, "collect-db") && SeenDone(log, from, "collect-config-maps")
    ensures DoneAll(more, earlier, nodes) && SeenDone(more, earlier, "collect-db") && SeenDone(more, earlier, "collect-config-maps")
  {
    hide SeenDone;
    SeenDoneStays(log, more, from, earlier, "collect-db");
    SeenDoneStays(log, more, from, earlier, "collect-config-maps");
    forall n | n in nodes ensures SeenDone(more, earlier, CollectJob(n)) {
      SeenDoneStays(log, more, from, earlier, CollectJob(n));
    }
  }

  lemma SweptLater(log: seq<Entry>, more: seq<Entry>, from: nat, earlier: nat, nodes: set<string>)
    requires log <= more && earlier <= from && SweptAll(log, from, nodes)
    requires JobSwept(log, from, "collect-db") && JobSwept(log, from, "collect-config-maps")
    ensures SweptAll(more, earlier, nodes) && JobSwept(more, earlier, "collect-db") && JobSwept(more, earlier, "collect-config-maps")
  {
    hide JobSwept;
    SweptStays(log, more, from, earlier, "collect-db");
    SweptStays(log, more, from, earlier, "collect-config-maps");
    forall n | n in nodes ensures JobSwept(more, earlier, CollectJob(n)) {
      SweptStays(log, more, from, earlier, CollectJob(n));
    }
  }

  lemma StartersDo(s: Sys, action: string)
    requires StartCollectors(s, action).flow == OK
    ensures var t := StartCollectors(s, action).s; var log, from := t.w.log, |s.w.log|; var tasks := Recorded(s, action);
      && s.w.log <= log && t.order == s.order
      && Recorded(t, action) == tasks["CollectDB" := "TaskFinished"]["CollectConfigMaps" := "TaskFinished"]
      && (!IsFinished(tasks, "CollectDB") ==> Got(log, from, CreateJob("collect-db"), {Done, Fails(AlreadyExists)}))
      && (!IsFinished(tasks, "CollectConfigMaps") ==>
            Got(log, from, CreateJob("collect-config-maps"), {Done, Fails(AlreadyExists)}))
  {
    hide JobStage, Got;
    TaskNamesApart();
    var db := JobStage(s, action, COLLECT_DB, DB_JOB).s;
    JobStageDoes(s, action, COLLECT_DB, DB_JOB);
    var maps := JobStage(db, action, COLLECT_CONFIG_MAPS, CONFIG_MAPS_JOB).s;
    JobStageDoes(db, action, COLLECT_CONFIG_MAPS, CONFIG_MAPS_JOB);
    var tasks := Recorded(s, action);
    if !IsFinished(tasks, "CollectDB") {
      GotStays(db.w.log, maps.w.log, |s.w.log|, |s.w.log|, CreateJob(DB_JOB), {Done, Fails(AlreadyExists)});
    }
    if !IsFinished(tasks, "CollectConfigMaps") {
      GotStays(maps.w.log, maps.w.log, |db.w.log|, |s.w.log|, CreateJob(CONFIG_MAPS_JOB), {Done, Fails(AlreadyExists)});
    }
  }

  /** The action asks to be taken off the list only when each of its five stages was recorded as finished before or has done
      its part in this call: both collectors started, and on every node of a client, a target and a management listing a job
      created, all of them seen completed without a failure, and all of them deleted with their pods. */
  lemma CollectDoes(s: Sys, action: string)
    requires Orderly(s.order) && Collect(s, action).remove
    ensures var t := Collect(s, action).r.s; var log, from := t.w.log, |s.w.log|; var tasks := Recorded(s, action);
      && s.w.log <= log
      && (exists nodes :: LogListing(log, from, nodes) && Collected(log, from, tasks, nodes))
      && Recorded(t, action) == tasks["CollectDB" := "TaskFinished"]["CollectConfigMaps" := "TaskFinished"][
           "CollectLogs" := "TaskFinished"]["waitForJobsToFinish" := "TaskFinished"]["DeleteJobs" := "TaskFinished"][
           "ActionComplete" := "TaskFinished"]
  {
    hide StartCollectors, LogNodes, NodeStages, Got, StartedAll, SeenDone, DoneAll, JobSwept, SweptAll, LogListing;
    var started := StartCollectors(s, action).s;
    StartersDo(s, action);
    var listed := LogNodes(started);
    LogNodesListed(started);
    var order := started.order(listed.nodes);
    assert Names(order) == listed.nodes by { assert Enumerates(s.order(listed.nodes), listed.nodes); }
    var done := NodeStages(listed.s, action, order).s;
    StagesCollect(listed.s, action, order);
    var log, tasks := done.w.log, Recorded(s, action);
    TaskNamesApart();
    ListingLater(listed.s.w.log, log, |started.w.log|, |s.w.log|, listed.nodes);
    if !IsFinished(tasks, "CollectDB") {
      GotStays(started.w.log, log, |s.w.log|, |s.w.log|, CreateJob("collect-db"), {Done, Fails(AlreadyExists)});
    }
    if !IsFinished(tasks, "CollectConfigMaps") {
      GotStays(started.w.log, log, |s.w.log|, |s.w.log|, CreateJob("collect-config-maps"), {Done, Fails(AlreadyExists)});
    }
    var from := |listed.s.w.log|;
    if !IsFinished(tasks, "CollectLogs") { StartedLater(log, log, from, |s.w.log|, listed.nodes); }
    if !IsFinished(tasks, "waitForJobsToFinish") { DoneLater(log, log, from, |s.w.log|, listed.nodes); }
    if !IsFinished(tasks, "DeleteJobs") { SweptLater(log, log, from, |s.w.log|, listed.nodes); }
    assert Collected(log, |s.w.log|, tasks, listed.nodes);
  }

  lemma ListingLater(log: seq<Entry>, more: seq<Entry>, from: nat, earlier: nat, nodes: set<string>)
    requires log <= more && earlier <= from && LogListing(log, from, nodes)
    ensures LogListing(more, earlier, nodes)
  {
    hide Listed;
    var clients, targets, servers :| Listed(log, from, CLIENT_LABEL, clients) && Listed(log, from, TARGET_LABEL, targets)
      && Listed(log, from, MGMT_LABEL, servers) && nodes == Names(clients + targets + servers);
    ListingStays(log, more, from, earlier, CLIENT_LABEL, clients);
    ListingStays(log, more, from, earlier, TARGET_LABEL, targets);
    ListingStays(log, more, from, earlier, MGMT_LABEL, servers);
  }

  // ---- collecting that does not get through ------------------------------------------------------

  /** Waiting asks for another turn in three seconds while a job runs; so does a node's job that failed, as an error without
      a requeue. */
  lemma {:induction false} LoopWaitsSlowly(s: Sys, nodes: seq<string>)
    ensures var flow := AwaitLogJobs(s, nodes).flow;
      flow.Killed? || flow == OK || flow == Return(Result(true, 3), None) || (flow.result == Result(false, 3) && flow.err.Some?)
    decreases |nodes|
  {
    hide Call;
    if nodes != [] {
      var job := LogsJob(nodes[0]);
      WaitExactly(s, job);
      AnswersFit(s, GetJob(job));
      LoopWaitsSlowly(WaitForJob(s, job).s, nodes[1..]);
    }
  }

  /** The two collectors are looked at before the nodes' jobs: the first that is not done decides, a running one asks for
      another turn in three seconds, a failed or unreadable one is an error. */
  lemma CollectorsAreAwaited(s: Sys, nodes: seq<string>)
    ensures var db := WaitForJob(s, "collect-db"); var maps := WaitForJob(db.s, "collect-config-maps"); var r := AwaitJobs(s, nodes);
      && (db.flow == Return(Result(true, 1), None) ==> r == Ran(db.s, Return(Result(true, 3), None)))
      && (db.flow.Killed? || db.flow.err.Some? ==> r == db)
      && (db.flow == OK && maps.flow == Return(Result(true, 1), None) ==> r == Ran(maps.s, Return(Result(true, 3), None)))
      && (db.flow == OK && (maps.flow.Killed? || maps.flow.err.Some?) ==> r == maps)
      && (r.flow.Return? && r.flow.result.requeue ==> r.flow == Return(Result(true, 3), None))
  {
    hide Call, AwaitLogJobs;
    WaitExactly(s, DB_JOB);
    AnswersFit(s, GetJob(DB_JOB));
    var db := WaitForJob(s, DB_JOB);
    WaitExactly(db.s, CONFIG_MAPS_JOB);
    AnswersFit(db.s, GetJob(CONFIG_MAPS_JOB));
    LoopWaitsSlowly(WaitForJob(db.s, CONFIG_MAPS_JOB).s, nodes);
  }

  /** A stage of the action that does not succeed leaves its task recorded as started, and its result is the action's; only
      deleting asks to be retried in a second, with its error. */
  lemma StagesStop(s: Sys, action: string, nodes: seq<string>, task: string, job: string)
    ensures !IsFinished(Recorded(s, action), task) ==>
      var started := Begun(s, action, task); var body := StartJob(started, job);
      body.flow != OK ==> JobStage(s, action, task, job) == body
    ensures !IsFinished(Recorded(s, action), "CollectLogs") ==>
      var body := StartLogJobs(Begun(s, action, "CollectLogs"), nodes);
      body.flow != OK ==> CreateStage(s, action, nodes) == body
    ensures !IsFinished(Recorded(s, action), "waitForJobsToFinish") ==>
      var body := AwaitJobs(Begun(s, action, "waitForJobsToFinish"), nodes);
      body.flow != OK ==> WaitStage(s, action, nodes) == body
    ensures !IsFinished(Recorded(s, action), "DeleteJobs") ==>
      var body := DeleteJobs(Begun(s, action, "DeleteJobs"), nodes);
      body.flow.Return? && body.flow != OK ==>
        DeleteStage(s, action, nodes) == Ran(body.s, Return(Result(true, 1), body.flow.err))
  {
    hide StartJob, StartLogJobs, AwaitJobs, DeleteJobs;
    DeleteSweeps(Begun(s, action, "DeleteJobs"), nodes);
    StartedIs(s, action, task);
    StartedIs(s, action, "CollectLogs");
    StartedIs(s, action, "waitForJobsToFinish");
    StartedIs(s, action, "DeleteJobs");
  }

  /** The copy with this task recorded as started. */
  function Begun(s: Sys, action: string, task: string): Sys
  {
    s.(cr := s.cr.(status := s.cr.status.(actions := s.cr.status.actions[action := Recorded(s, action)[task := "TaskStarted"]])))
  }

  lemma StartedIs(s: Sys, action: string, task: string)
    ensures WithTask(WithTouch(s, action), action, task, TASK_STARTED) == Begun(s, action, task)
  {
    assert s.cr.status.actions[action := map[]][action := map[][task := TASK_STARTED]]
        == s.cr.status.actions[action := map[][task := TASK_STARTED]];
  }

  /** A listing of nodes that fails ends the action with its error, before anything is done on a node. */
  lemma FailedLogListingEnds(s: Sys, action: string)
    ensures var clients := Call(s, ListNodes("nvmesh.excelero.com/nvmesh-client"));
      var targets := Call(clients.s, ListNodes("nvmesh.excelero.com/nvmesh-target"));
      var servers := Call(targets.s, ListNodes("nvmesh.excelero.com/nvmesh-management")); var r := CollectOnNodes(s, action);
      && (clients.reply.Fails? && clients.reply.error != NotFound ==> r == Ran(clients.s, Fail(clients.reply.error)))
      && (clients.reply.NodesAre? && targets.reply.Fails? && targets.reply.error != NotFound ==>
            r == Ran(targets.s, Fail(targets.reply.error)))
      && (clients.reply.NodesAre? && targets.reply.NodesAre? && servers.reply.Fails? && servers.reply.error != NotFound ==>
            r == Ran(servers.s, Fail(servers.reply.error)))
  {
    hide Call, NodeStages;
  }
}
