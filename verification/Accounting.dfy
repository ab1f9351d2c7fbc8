/** The account of the collect-logs jobs: which are created, which are seen done, which are deleted. */
module Accounting {
  import opened Basics
  import opened Strings
  import opened Kube
  import opened Jobs
  import opened Tasks
  import opened Uninstall
  import opened CollectLogs
  import opened NodeJobs

  function AllJobs(nodes: set<string>): set<string>
  {
    {DB_JOB, CONFIG_MAPS_JOB} + JobNames(nodes)
  }

  /** From s to t no jobs but these came, and no jobs but these went or were asked to go. */
  ghost predicate Step(s: Sys, t: Sys, come: set<string>, gone: set<string>)
  {
    && Follows(s, t) && JobsLeftAlone(t.ticks)
    && t.w.jobs.Keys <= s.w.jobs.Keys + come
    && s.w.jobs.Keys - gone <= t.w.jobs.Keys
    && (forall i :: |s.w.log| <= i < |t.w.log| && t.w.log[i].request.CreateJob? ==> t.w.log[i].request.job in come)
    && forall i :: |s.w.log| <= i < |t.w.log| && t.w.log[i].request.DeleteJob? ==> t.w.log[i].request.job in gone
  }

  lemma CallIsStep(s: Sys, q: Request)
    requires JobsLeftAlone(s.ticks) && !q.UpdateStatus?
    ensures var a := Call(s, q);
      && Step(s, a.s, if q.CreateJob? then {q.job} else {}, if q.DeleteJob? then {q.job} else {})
      && a.s.cr == s.cr
  {
    hide Call;
    var a := Call(s, q);
    JobsAfterCall(s, q);
    OneMoreEntry(s, q);
    assert forall i :: |s.w.log| <= i < |a.s.w.log| ==> a.s.w.log[i].request == q;
  }

  // ---- the pieces ------------------------------------------------------------------------------

  lemma StartIsStep(s: Sys, job: string)
    requires JobsLeftAlone(s.ticks)
    ensures var r := StartJob(s, job);
      && Step(s, r.s, {job}, {}) && r.s.cr == s.cr && (r.flow == OK ==> job in r.s.w.jobs)
      && (r.flow.Return? && r.flow != OK ==> r.flow.err.Some?)
  {
    hide Call;
    CallIsStep(s, CreateJob(job));
    JobsAfterCall(s, CreateJob(job));
  }

  lemma {:induction false} StartsAreSteps(s: Sys, nodes: seq<string>)
    requires JobsLeftAlone(s.ticks)
    ensures var r := StartLogJobs(s, nodes);
      && Step(s, r.s, JobNames(Names(nodes)), {}) && r.s.cr == s.cr
      && (r.flow == OK ==> JobNames(Names(nodes)) <= r.s.w.jobs.Keys)
      && (r.flow.Return? && r.flow != OK ==> r.flow.err.Some?)
    decreases |nodes|
  {
    hide StartJob;
    if nodes != [] {
      var one := StartJob(s, LogsJob(nodes[0]));
      StartIsStep(s, LogsJob(nodes[0]));
      assert JobNames(Names(nodes)) == {LogsJob(nodes[0])} + JobNames(Names(nodes[1..])) by { NamesSplit(nodes); }
      if one.flow == OK {
        StartsAreSteps(one.s, nodes[1..]);
      }
    }
  }

  lemma NamesSplit(nodes: seq<string>)
    requires nodes != []
    ensures JobNames(Names(nodes)) == {LogsJob(nodes[0])} + JobNames(Names(nodes[1..]))
  {
    assert nodes == [nodes[0]] + nodes[1..];
    assert Names(nodes) == {nodes[0]} + Names(nodes[1..]);
  }

  /** In the log from `from` on this job was seen done, and nobody asked to create it again since. */
  predicate DoneSince(log: seq<Entry>, from: nat, job: string)
  {
    exists i :: from <= i < |log| && SeenAt(log, i, job)
  }

  predicate SeenAt(log: seq<Entry>, i: nat, job: string)
    requires i < |log|
  {
    && log[i].request == GetJob(job) && log[i].reply.JobIs? && CompletedCleanly(log[i].reply.job)
    && forall k :: i < k < |log| ==> log[k].request != CreateJob(job)
  }

  /** None of these jobs is asked for in the part that `more` adds. */
  predicate Uncreated(log: seq<Entry>, more: seq<Entry>, jobs: set<string>)
  {
    log <= more && forall k :: |log| <= k < |more| && more[k].request.CreateJob? ==> more[k].request.job !in jobs
  }

  lemma DoneSinceStays(log: seq<Entry>, more: seq<Entry>, from: nat, earlier: nat, job: string)
    requires Uncreated(log, more, {job}) && earlier <= from && DoneSince(log, from, job)
    ensures DoneSince(more, earlier, job)
  {
    var i :| from <= i < |log| && SeenAt(log, i, job);
    assert more[i] == log[i];
    forall k | i < k < |more| ensures more[k].request != CreateJob(job) {
      if k < |log| { assert more[k] == log[k]; }
    }
    assert SeenAt(more, i, job);
  }

  lemma WaitIsStep(s: Sys, job: string)
    requires JobsLeftAlone(s.ticks)
    ensures var r := WaitForJob(s, job);
      && Step(s, r.s, {}, {}) && r.s.cr == s.cr && (r.flow == OK ==> DoneSince(r.s.w.log, |s.w.log|, job))
      && (r.flow.Return? && r.flow != OK ==> r.flow.err.Some? || r.flow.result.requeue)
  {
    hide Call;
    CallIsStep(s, GetJob(job));
    AnswersFit(s, GetJob(job));
    WaitingSees(s, job);
    OneMoreEntry(s, GetJob(job));
    var r := WaitForJob(s, job);
    if r.flow == OK {
      var i :| |s.w.log| <= i < |r.s.w.log| && r.s.w.log[i].request == GetJob(job)
        && r.s.w.log[i].reply.JobIs? && CompletedCleanly(r.s.w.log[i].reply.job);
      assert SeenAt(r.s.w.log, i, job);
    }
  }

  /** All of these jobs were seen done, in the log from `from` on. */
  predicate AllDone(log: seq<Entry>, from: nat, jobs: set<string>)
  {
    forall j :: j in jobs ==> DoneSince(log, from, j)
  }

  lemma AllDoneStays(log: seq<Entry>, more: seq<Entry>, from: nat, earlier: nat, jobs: set<string>)
    requires Uncreated(log, more, jobs) && earlier <= from && AllDone(log, from, jobs)
    ensures AllDone(more, earlier, jobs)
  {
    forall j | j in jobs ensures DoneSince(more, earlier, j) { DoneSinceStays(log, more, from, earlier, j); }
  }

  lemma {:induction false} WaitsAreSteps(s: Sys, nodes: seq<string>)
    requires JobsLeftAlone(s.ticks)
    ensures var r := AwaitLogJobs(s, nodes);
      && Step(s, r.s, {}, {}) && r.s.cr == s.cr
      && (r.flow == OK ==> AllDone(r.s.w.log, |s.w.log|, JobNames(Names(nodes))))
      && (r.flow.Return? && r.flow != OK ==> r.flow.err.Some? || r.flow.result.requeue)
    decreases |nodes|
  {
    hide WaitForJob, DoneSince;
    if nodes != [] {
      var one := WaitForJob(s, LogsJob(nodes[0]));
      WaitIsStep(s, LogsJob(nodes[0]));
      NamesSplit(nodes);
      if one.flow == OK {
        var r := AwaitLogJobs(one.s, nodes[1..]);
        WaitsAreSteps(one.s, nodes[1..]);
        DoneSinceStays(one.s.w.log, r.s.w.log, |s.w.log|, |s.w.log|, LogsJob(nodes[0]));
        if r.flow == OK { AllDoneStays(r.s.w.log, r.s.w.log, |one.s.w.log|, |s.w.log|, JobNames(Names(nodes[1..]))); }
      }
    }
  }

  lemma AwaitingIsStep(s: Sys, nodes: seq<string>)
    requires JobsLeftAlone(s.ticks)
    ensures var r := AwaitJobs(s, nodes);
      && Step(s, r.s, {}, {}) && r.s.cr == s.cr
      && (r.flow == OK ==> AllDone(r.s.w.log, |s.w.log|, AllJobs(Names(nodes))))
      && (r.flow.Return? && r.flow != OK ==> r.flow.err.Some? || r.flow.result.requeue)
  {
    hide WaitForJob, AwaitLogJobs, DoneSince;
    var db := Slowly(WaitForJob(s, DB_JOB));
    WaitIsStep(s, DB_JOB);
    if db.flow == OK {
      var maps := Slowly(WaitForJob(db.s, CONFIG_MAPS_JOB));
      WaitIsStep(db.s, CONFIG_MAPS_JOB);
      if maps.flow == OK {
        var r := AwaitLogJobs(maps.s, nodes);
        WaitsAreSteps(maps.s, nodes);
        DoneSinceStays(db.s.w.log, r.s.w.log, |s.w.log|, |s.w.log|, DB_JOB);
        DoneSinceStays(maps.s.w.log, r.s.w.log, |db.s.w.log|, |s.w.log|, CONFIG_MAPS_JOB);
        if r.flow == OK { AllDoneStays(r.s.w.log, r.s.w.log, |maps.s.w.log|, |s.w.log|, JobNames(Names(nodes))); }
      }
    }
  }

  lemma {:induction false} PodsAreStep(s: Sys, pods: seq<Pod>)
    requires JobsLeftAlone(s.ticks)
    ensures var r := DeletePods(s, pods); Step(s, r.s, {}, {}) && r.s.cr == s.cr && OkOrTold(r.flow)
    decreases |pods|
  {
    hide Call;
    if pods != [] {
      var q := DeletePod(pods[0].name);
      CallIsStep(s, q);
      PodsAreStep(Call(s, q).s, pods[1..]);
    }
  }

  /** Success, death, or an error that is not a missing object. */
  predicate OkOrTold(flow: Flow)
  {
    flow.Killed? || flow == OK || (flow.err.Some? && !flow.err.value.NotFound?)
  }

  lemma RemovalIsStep(s: Sys, job: string)
    requires JobsLeftAlone(s.ticks)
    ensures var r := RemoveJob(s, job);
      Step(s, r.s, {}, {job}) && r.s.cr == s.cr && (r.flow == OK ==> job !in r.s.w.jobs) && OkOrTold(r.flow)
  {
    hide Call;
    var gone := Call(s, DeleteJob(job));
    CallIsStep(s, DeleteJob(job));
    JobIsRemoved(s, job);
    if Deleted(gone).flow == OK {
      var listed := Call(gone.s, ListJobPods(job));
      CallIsStep(gone.s, ListJobPods(job));
      if listed.reply.PodsAre? {
        PodsAreStep(listed.s, listed.reply.pods);
      }
    }
  }

  lemma {:induction false} RemovalsAreSteps(s: Sys, nodes: seq<string>)
    requires JobsLeftAlone(s.ticks)
    ensures var r := DeleteLogJobs(s, nodes); var names := JobNames(Names(nodes));
      && Step(s, r.s, {}, names) && r.s.cr == s.cr
      && (r.flow == OK ==> r.s.w.jobs.Keys !! names) && OkOrTold(r.flow)
    decreases |nodes|
  {
    hide RemoveJob;
    if nodes != [] {
      var one := RemoveJob(s, LogsJob(nodes[0]));
      RemovalIsStep(s, LogsJob(nodes[0]));
      NamesSplit(nodes);
      if one.flow == OK {
        RemovalsAreSteps(one.s, nodes[1..]);
      }
    }
  }

  lemma DeletionIsStep(s: Sys, nodes: seq<string>)
    requires JobsLeftAlone(s.ticks)
    ensures var r := DeleteJobs(s, nodes); var names := AllJobs(Names(nodes));
      && Step(s, r.s, {}, names) && r.s.cr == s.cr
      && (r.flow == OK ==> r.s.w.jobs.Keys !! names) && OkOrTold(r.flow)
  {
    hide RemoveJob, DeleteLogJobs;
    var db := RemoveJob(s, DB_JOB);
    RemovalIsStep(s, DB_JOB);
    if db.flow == OK {
      var maps := RemoveJob(db.s, CONFIG_MAPS_JOB);
      RemovalIsStep(db.s, CONFIG_MAPS_JOB);
      if maps.flow == OK {
        RemovalsAreSteps(maps.s, nodes);
      }
    }
  }

  lemma ListingIsStep(s: Sys)
    requires JobsLeftAlone(s.ticks)
    ensures var r := LogNodes(s);
      && Step(s, r.s, {}, {}) && r.s.cr == s.cr
      && (r.flow.Return? && r.flow != OK ==> r.flow.err.Some?)
  {
    hide NodesWithLabel;
    var clients := NodesWithLabel(s, CLIENT_LABEL);
    LabelIsStep(s, CLIENT_LABEL);
    if clients.flow == OK {
      var targets := NodesWithLabel(clients.s, TARGET_LABEL);
      LabelIsStep(clients.s, TARGET_LABEL);
      if targets.flow == OK {
        LabelIsStep(targets.s, MGMT_LABEL);
      }
    }
  }

  lemma LabelIsStep(s: Sys, key: string)
    requires JobsLeftAlone(s.ticks)
    ensures var r := NodesWithLabel(s, key);
      Step(s, r.s, {}, {}) && r.s.cr == s.cr && (r.flow.Return? && r.flow != OK ==> r.flow.err.Some?)
  {
    hide Call;
    CallIsStep(s, ListNodes(key));
  }

  // ---- the stages ------------------------------------------------------------------------------

  function MyTasks(s: Sys, action: string): TaskMap
  {
    TasksOf(s.cr.status, action)
  }

  /** Nothing but this task changed, and what was finished is. */
  ghost predicate OnlyTask(before: TaskMap, after: TaskMap, task: string)
  {
    && (Finished(before, task) ==> Finished(after, task))
    && forall u :: u != task ==> (Finished(before, u) <==> Finished(after, u))
  }

  lemma TaskIsSet(s: Sys, action: string, task: string, value: string)
    requires !Finished(MyTasks(s, action), task)
    ensures OnlyTask(MyTasks(s, action), MyTasks(WithTask(s, action, task, value), action), task)
    ensures Finished(MyTasks(WithTask(s, action, task, value), action), task) <==> value == TASK_FINISHED
  {
  }

  /** What a stage did: nothing if it was finished, else what `come` and `gone` allow. */
  ghost predicate StageTook(s: Sys, r: Ran, action: string, task: string, come: set<string>, gone: set<string>)
  {
    var before, after := MyTasks(s, action), MyTasks(r.s, action);
    && Step(s, r.s, come, gone) && OnlyTask(before, after, task)
    && (Finished(before, task) ==> r.s.w == s.w && r.flow == OK)
    && (r.flow == OK ==> Finished(after, task))
    && (r.flow != OK ==> !Finished(after, task))
  }

  lemma JobStageTakes(s: Sys, action: string, task: string, job: string)
    requires JobsLeftAlone(s.ticks)
    ensures var r := JobStage(s, action, task, job);
      StageTook(s, r, action, task, {job}, {}) && (r.flow.Return? && r.flow != OK ==> r.flow.err.Some?)
  {
    hide StartJob;
    if !Finished(MyTasks(s, action), task) {
      var started := WithTask(WithTouch(s, action), action, task, TASK_STARTED);
      StartIsStep(started, job);
    }
  }

  lemma CreateStageTakes(s: Sys, action: string, nodes: seq<string>)
    requires JobsLeftAlone(s.ticks)
    ensures var r := CreateStage(s, action, nodes); var names := JobNames(Names(nodes));
      && StageTook(s, r, action, COLLECT_LOGS, names, {})
      && (r.flow == OK && !Finished(MyTasks(s, action), COLLECT_LOGS) ==> names <= r.s.w.jobs.Keys)
      && (r.flow.Return? && r.flow != OK ==> r.flow.err.Some?)
  {
    hide StartLogJobs;
    if !Finished(MyTasks(s, action), COLLECT_LOGS) {
      var started := WithTask(WithTouch(s, action), action, COLLECT_LOGS, TASK_STARTED);
      StartsAreSteps(started, nodes);
    }
  }

  lemma WaitStageTakes(s: Sys, action: string, nodes: seq<string>)
    requires JobsLeftAlone(s.ticks)
    ensures var r := WaitStage(s, action, nodes);
      && StageTook(s, r, action, WAIT_FOR_JOBS, {}, {})
      && (r.flow == OK && !Finished(MyTasks(s, action), WAIT_FOR_JOBS) ==>
            AllDone(r.s.w.log, |s.w.log|, AllJobs(Names(nodes))))
  {
    hide AwaitJobs, DoneSince;
    if !Finished(MyTasks(s, action), WAIT_FOR_JOBS) {
      var started := WithTask(WithTouch(s, action), action, WAIT_FOR_JOBS, TASK_STARTED);
      AwaitingIsStep(started, nodes);
    }
  }

  lemma DeleteStageTakes(s: Sys, action: string, nodes: seq<string>)
    requires JobsLeftAlone(s.ticks)
    ensures var r := DeleteStage(s, action, nodes); var names := AllJobs(Names(nodes));
      && StageTook(s, r, action, DELETE_JOBS, {}, names)
      && (r.flow == OK && !Finished(MyTasks(s, action), DELETE_JOBS) ==> r.s.w.jobs.Keys !! names)
      && (r.flow.Return? && r.flow != OK ==> r.flow.err.Some?)
  {
    hide DeleteJobs, AllJobs, JobsLeftAlone;
    if !Finished(MyTasks(s, action), DELETE_JOBS) {
      var started := WithTask(WithTouch(s, action), action, DELETE_JOBS, TASK_STARTED);
      TaskIsSet(WithTouch(s, action), action, DELETE_JOBS, TASK_STARTED);
      DeletionIsStep(started, nodes);
      TaskIsSet(DeleteJobs(started, nodes).s, action, DELETE_JOBS, TASK_FINISHED);
    }
  }

  // ---- with a fixed set of nodes ---------------------------------------------------------------

  predicate InStageOrder(tasks: TaskMap)
  {
    && (Finished(tasks, DELETE_JOBS) ==> Finished(tasks, WAIT_FOR_JOBS))
    && (Finished(tasks, WAIT_FOR_JOBS) ==> Finished(tasks, COLLECT_LOGS))
    && (Finished(tasks, COLLECT_LOGS) ==> Finished(tasks, COLLECT_CONFIG_MAPS))
    && (Finished(tasks, COLLECT_CONFIG_MAPS) ==> Finished(tasks, COLLECT_DB))
  }

  /** From `from` on, each of these jobs was seen done before anyone asked to delete it. */
  ghost predicate DeletedAfterDone(log: seq<Entry>, from: nat, jobs: set<string>)
  {
    forall i :: from <= i < |log| && log[i].request.DeleteJob? && log[i].request.job in jobs ==>
      DoneSince(log[..i], from, log[i].request.job)
  }

  /** The recorded tasks are in order and true. */
  ghost predicate Ledger(tasks: TaskMap, w: World, from: nat, nodes: set<string>)
  {
    && InStageOrder(tasks) && from <= |w.log|
    && (Finished(tasks, WAIT_FOR_JOBS) ==> AllDone(w.log, from, AllJobs(nodes)))
    && (Finished(tasks, DELETE_JOBS) ==> w.jobs.Keys !! AllJobs(nodes))
    && DeletedAfterDone(w.log, from, AllJobs(nodes))
  }

  lemma DeletionsStayPatient(s: Sys, t: Sys, come: set<string>, gone: set<string>, from: nat, jobs: set<string>)
    requires Step(s, t, come, gone) && from <= |s.w.log| && DeletedAfterDone(s.w.log, from, jobs)
    requires gone == {} || (AllDone(s.w.log, from, jobs) && come == {})
    ensures DeletedAfterDone(t.w.log, from, jobs)
  {
    forall i | from <= i < |t.w.log| && t.w.log[i].request.DeleteJob? && t.w.log[i].request.job in jobs
      ensures DoneSince(t.w.log[..i], from, t.w.log[i].request.job)
    {
      if i < |s.w.log| {
        assert t.w.log[i] == s.w.log[i] && t.w.log[..i] == s.w.log[..i];
      } else {
        DoneSinceStays(s.w.log, t.w.log[..i], from, from, t.w.log[i].request.job);
      }
    }
  }

  /** A stage keeps the account, if the earlier stages are finished and a wait or delete does its work. */
  lemma StageKeepsLedger(s: Sys, r: Ran, action: string, task: string, come: set<string>, gone: set<string>,
                         from: nat, nodes: set<string>)
    requires StageTook(s, r, action, task, come, gone) && Ledger(MyTasks(s, action), s.w, from, nodes)
    requires InStageOrder(MyTasks(r.s, action))
    requires Finished(MyTasks(s, action), WAIT_FOR_JOBS) && !Finished(MyTasks(s, action), task) ==> come == {}
    requires gone == {} || (Finished(MyTasks(s, action), WAIT_FOR_JOBS) && come == {})
    requires task == WAIT_FOR_JOBS && r.flow == OK && !Finished(MyTasks(s, action), task) ==>
      AllDone(r.s.w.log, |s.w.log|, AllJobs(nodes))
    requires task == DELETE_JOBS && r.flow == OK && !Finished(MyTasks(s, action), task) ==> r.s.w.jobs.Keys !! AllJobs(nodes)
    ensures Ledger(MyTasks(r.s, action), r.s.w, from, nodes)
  {
    hide DoneSince;
    DeletionsStayPatient(s, r.s, come, gone, from, AllJobs(nodes));
    if Finished(MyTasks(s, action), WAIT_FOR_JOBS) {
      AllDoneStays(s.w.log, r.s.w.log, from, from, AllJobs(nodes));
    } else if Finished(MyTasks(r.s, action), WAIT_FOR_JOBS) {
      AllDoneStays(r.s.w.log, r.s.w.log, |s.w.log|, from, AllJobs(nodes));
    }
  }

  ghost predicate NothingUndone(before: TaskMap, after: TaskMap)
  {
    forall u :: Finished(before, u) ==> Finished(after, u)
  }

  lemma CollectorsKeepLedger(s: Sys, action: string, from: nat, nodes: set<string>)
    requires JobsLeftAlone(s.ticks) && Ledger(MyTasks(s, action), s.w, from, nodes)
    ensures var r := StartCollectors(s, action);
      && Ledger(MyTasks(r.s, action), r.s.w, from, nodes) && NothingUndone(MyTasks(s, action), MyTasks(r.s, action))
      && JobsLeftAlone(r.s.ticks) && r.s.order == s.order
      && (r.flow == OK ==> Finished(MyTasks(r.s, action), COLLECT_CONFIG_MAPS))
  {
    hide JobStage, AllDone, DeletedAfterDone;
    var db := JobStage(s, action, COLLECT_DB, DB_JOB);
    JobStageTakes(s, action, COLLECT_DB, DB_JOB);
    StageKeepsLedger(s, db, action, COLLECT_DB, {DB_JOB}, {}, from, nodes);
    if db.flow == OK {
      JobStageTakes(db.s, action, COLLECT_CONFIG_MAPS, CONFIG_MAPS_JOB);
      StageKeepsLedger(db.s, JobStage(db.s, action, COLLECT_CONFIG_MAPS, CONFIG_MAPS_JOB), action, COLLECT_CONFIG_MAPS,
                       {CONFIG_MAPS_JOB}, {}, from, nodes);
    }
  }

  lemma NodeStagesKeepLedger(s: Sys, action: string, list: seq<string>, from: nat)
    requires JobsLeftAlone(s.ticks) && Ledger(MyTasks(s, action), s.w, from, Names(list))
    requires Finished(MyTasks(s, action), COLLECT_CONFIG_MAPS)
    ensures var r := NodeStages(s, action, list);
      && Ledger(MyTasks(r.s, action), r.s.w, from, Names(list)) && NothingUndone(MyTasks(s, action), MyTasks(r.s, action))
      && (r.flow == OK ==> Finished(MyTasks(r.s, action), DELETE_JOBS))
  {
    hide CreateStage, WaitStage, DeleteStage, AllDone, DeletedAfterDone;
    var nodes := Names(list);
    var created := CreateStage(s, action, list);
    CreateStageTakes(s, action, list);
    StageKeepsLedger(s, created, action, COLLECT_LOGS, JobNames(nodes), {}, from, nodes);
    if created.flow == OK {
      var waited := WaitStage(created.s, action, list);
      WaitStageTakes(created.s, action, list);
      StageKeepsLedger(created.s, waited, action, WAIT_FOR_JOBS, {}, {}, from, nodes);
      if waited.flow == OK {
        DeleteStageTakes(waited.s, action, list);
        StageKeepsLedger(waited.s, DeleteStage(waited.s, action, list), action, DELETE_JOBS, {}, AllJobs(nodes), from, nodes);
      }
    }
  }

  /** The nodes this visit lists, if it gets that far, are these. */
  ghost predicate FindsNodes(s: Sys, action: string, nodes: set<string>)
  {
    var started := StartCollectors(s, action);
    var listed := LogNodes(started.s);
    started.flow == OK && listed.flow == OK ==>
      listed.nodes == nodes && Enumerates(s.order(nodes), nodes)
  }

  /** One visit, however it ends, keeps the account: with the tasks it leaves, and also with the tasks it
      started from in case those are what is stored when the next visit comes. */
  lemma VisitKeepsLedger(s: Sys, action: string, from: nat, nodes: set<string>)
    requires JobsLeftAlone(s.ticks) && FindsNodes(s, action, nodes)
    requires Ledger(MyTasks(s, action), s.w, from, nodes)
    ensures var c := Collect(s, action);
      && Ledger(MyTasks(c.r.s, action), c.r.s.w, from, nodes)
      && Ledger(MyTasks(s, action), c.r.s.w, from, nodes)
      && NothingUndone(MyTasks(s, action), MyTasks(c.r.s, action))
      && (c.remove ==> forall t :: t in ALL_TASKS ==> Finished(MyTasks(c.r.s, action), t))
  {
    hide StartCollectors, LogNodes, NodeStages, AllDone, DeletedAfterDone;
    var started := StartCollectors(s, action);
    CollectorsKeepLedger(s, action, from, nodes);
    if started.flow == OK {
      var listed := LogNodes(started.s);
      ListingIsStep(started.s);
      ListingKeepsLedger(started.s, action, from, nodes);
      if listed.flow == OK {
        var list := s.order(nodes);
        assert Names(list) == nodes;
        var r := NodeStages(listed.s, action, list);
        NodeStagesKeepLedger(listed.s, action, list, from);
        assert CollectOnNodes(started.s, action) == r;
      }
    }
  }

  const ALL_TASKS := {COLLECT_DB, COLLECT_CONFIG_MAPS, COLLECT_LOGS, WAIT_FOR_JOBS, DELETE_JOBS, ACTION_COMPLETE}

  lemma ListingKeepsLedger(s: Sys, action: string, from: nat, nodes: set<string>)
    requires JobsLeftAlone(s.ticks) && Ledger(MyTasks(s, action), s.w, from, nodes)
    ensures Ledger(MyTasks(LogNodes(s).s, action), LogNodes(s).s.w, from, nodes)
  {
    hide LogNodes, DoneSince;
    var t := LogNodes(s).s;
    ListingIsStep(s);
    DeletionsStayPatient(s, t, {}, {}, from, AllJobs(nodes));
    if Finished(MyTasks(s, action), WAIT_FOR_JOBS) { AllDoneStays(s.w.log, t.w.log, from, from, AllJobs(nodes)); }
  }

  /** From one visit to the next: either visit's status was the one stored, and nobody else touched the jobs
      in question, except that they may vanish. */
  ghost predicate Resumes(s: Sys, t: Sys, action: string, jobs: set<string>)
  {
    var left := Collect(s, action).r.s;
    && (MyTasks(t, action) == MyTasks(left, action) || MyTasks(t, action) == MyTasks(s, action))
    && left.w.log <= t.w.log && t.w.jobs.Keys * jobs <= left.w.jobs.Keys
    && Uncreated(left.w.log, t.w.log, jobs)
    && (forall i :: |left.w.log| <= i < |t.w.log| && t.w.log[i].request.DeleteJob? ==> t.w.log[i].request.job !in jobs)
  }

  /** The visits of one requested action, from its first. */
  ghost predicate Visits(visits: seq<Sys>, action: string, nodes: set<string>)
  {
    && visits != [] && MyTasks(visits[0], action) == map[]
    && (forall i :: 0 <= i < |visits| ==> JobsLeftAlone(visits[i].ticks) && FindsNodes(visits[i], action, nodes))
    && (forall i :: 0 < i < |visits| ==> Resumes(visits[i - 1], visits[i], action, AllJobs(nodes)))
  }

  lemma ResumingKeepsLedger(s: Sys, t: Sys, action: string, from: nat, nodes: set<string>)
    requires Resumes(s, t, action, AllJobs(nodes))
    requires Ledger(MyTasks(s, action), Collect(s, action).r.s.w, from, nodes)
    requires Ledger(MyTasks(Collect(s, action).r.s, action), Collect(s, action).r.s.w, from, nodes)
    ensures Ledger(MyTasks(t, action), t.w, from, nodes)
  {
    hide Collect, DoneSince;
    var w := Collect(s, action).r.s.w;
    var jobs := AllJobs(nodes);
    if Finished(MyTasks(t, action), WAIT_FOR_JOBS) { AllDoneStays(w.log, t.w.log, from, from, jobs); }
    forall i | from <= i < |t.w.log| && t.w.log[i].request.DeleteJob? && t.w.log[i].request.job in jobs
      ensures DoneSince(t.w.log[..i], from, t.w.log[i].request.job)
    {
      assert i < |w.log| && t.w.log[i] == w.log[i] && t.w.log[..i] == w.log[..i];
    }
  }

  lemma {:induction false} VisitsKeepLedger(visits: seq<Sys>, action: string, nodes: set<string>, k: nat)
    requires Visits(visits, action, nodes) && k < |visits|
    ensures var from := |visits[0].w.log|;
      && Ledger(MyTasks(visits[k], action), visits[k].w, from, nodes)
      && Ledger(MyTasks(Collect(visits[k], action).r.s, action), Collect(visits[k], action).r.s.w, from, nodes)
    decreases k
  {
    hide Collect, FindsNodes, JobsLeftAlone, DoneSince;
    if k > 0 {
      VisitsKeepLedger(visits, action, nodes, k - 1);
      VisitKeepsLedger(visits[k - 1], action, |visits[0].w.log|, nodes);
      ResumingKeepsLedger(visits[k - 1], visits[k], action, |visits[0].w.log|, nodes);
    }
    VisitKeepsLedger(visits[k], action, |visits[0].w.log|, nodes);
  }

  /** With a fixed set of nodes, whatever errors, deaths and lost status writes there were: the action asks to be
      taken off the list only with every stage finished and none of its jobs left, and no job was ever deleted
      before it was seen done. */
  lemma NothingLeftBehind(visits: seq<Sys>, action: string, nodes: set<string>, k: nat)
    requires Visits(visits, action, nodes) && k < |visits|
    ensures var c := Collect(visits[k], action);
      && (c.remove ==> c.r.s.w.jobs.Keys !! AllJobs(nodes))
      && (c.remove ==> forall t :: t in ALL_TASKS ==> Finished(MyTasks(c.r.s, action), t))
      && DeletedAfterDone(c.r.s.w.log, |visits[0].w.log|, AllJobs(nodes))
  {
    hide Collect, FindsNodes, JobsLeftAlone, DoneSince;
    VisitsKeepLedger(visits, action, nodes, k);
    VisitKeepsLedger(visits[k], action, |visits[0].w.log|, nodes);
  }

  // ---- with a set of nodes that drifts ---------------------------------------------------------

  /** What one visit works on: the nodes it lists. */
  function Found(s: Sys, action: string): set<string>
  {
    LogNodes(StartCollectors(s, action).s).nodes
  }

  lemma NamesAreLogsJobs(nodes: set<string>)
    ensures forall j :: j in JobNames(nodes) ==> IsLogsJob(j)
    ensures !IsLogsJob(DB_JOB) && !IsLogsJob(CONFIG_MAPS_JOB)
  {
    forall n | n in nodes ensures IsLogsJob(LogsJob(n)) { LogsJobShape(n); }
    LogsJobShape("");
  }

  lemma CollectorsAccount(s: Sys, action: string)
    requires JobsLeftAlone(s.ticks)
    ensures var r := StartCollectors(s, action);
      && Follows(s, r.s) && JobsLeftAlone(r.s.ticks) && LogsJobs(r.s.w) == LogsJobs(s.w)
      && (forall t :: t in {COLLECT_LOGS, WAIT_FOR_JOBS, DELETE_JOBS} ==>
            (Finished(MyTasks(s, action), t) <==> Finished(MyTasks(r.s, action), t)))
      && (r.flow.Return? && r.flow != OK ==> r.flow.err.Some?)
  {
    hide JobStage, IsLogsJob;
    NamesAreLogsJobs({});
    var db := JobStage(s, action, COLLECT_DB, DB_JOB);
    JobStageTakes(s, action, COLLECT_DB, DB_JOB);
    if db.flow == OK {
      JobStageTakes(db.s, action, COLLECT_CONFIG_MAPS, CONFIG_MAPS_JOB);
    }
  }

  /** The visit gets as far as its node list. */
  predicate ListsNodes(s: Sys, action: string)
  {
    StartCollectors(s, action).flow == OK && LogNodes(StartCollectors(s, action).s).flow == OK
  }

  function NodeList(s: Sys, action: string): seq<string>
  {
    s.order(Found(s, action))
  }

  function CreateOf(s: Sys, action: string): Ran
  {
    CreateStage(LogNodes(StartCollectors(s, action).s).s, action, NodeList(s, action))
  }

  function WaitOf(s: Sys, action: string): Ran
  {
    WaitStage(CreateOf(s, action).s, action, NodeList(s, action))
  }

  function DeleteOf(s: Sys, action: string): Ran
  {
    DeleteStage(WaitOf(s, action).s, action, NodeList(s, action))
  }

  /** The visit enters the body of the creating stage. */
  predicate EntersCreate(s: Sys, action: string)
  {
    ListsNodes(s, action) && !Finished(MyTasks(s, action), COLLECT_LOGS)
  }

  /** The visit enters the body of the deleting stage. */
  predicate EntersDelete(s: Sys, action: string)
  {
    && ListsNodes(s, action) && CreateOf(s, action).flow == OK && WaitOf(s, action).flow == OK
    && !Finished(MyTasks(s, action), DELETE_JOBS)
  }

  lemma CollectIsItsStages(s: Sys, action: string)
    ensures var r := Collect(s, action).r.s; var listed := LogNodes(StartCollectors(s, action).s).s;
      && (!ListsNodes(s, action) ==> r == StartCollectors(s, action).s || r == listed)
      && (ListsNodes(s, action) && CreateOf(s, action).flow != OK ==> r == CreateOf(s, action).s)
      && (ListsNodes(s, action) && CreateOf(s, action).flow == OK && WaitOf(s, action).flow != OK ==> r == WaitOf(s, action).s)
      && (ListsNodes(s, action) && CreateOf(s, action).flow == OK && WaitOf(s, action).flow == OK ==>
            r == DeleteOf(s, action).s || r == WithTask(DeleteOf(s, action).s, action, ACTION_COMPLETE, TASK_FINISHED))
  {
    hide StartCollectors, LogNodes, CreateStage, WaitStage, DeleteStage;
    SameOrder(s, action);
  }

  lemma SameOrder(s: Sys, action: string)
    ensures StartCollectors(s, action).s.order == s.order
  {
    hide EnvRun, Effect, Answer;
  }

  /** The stages of one visit that lists its nodes. */
  lemma StagesOfVisit(s: Sys, action: string)
    requires JobsLeftAlone(s.ticks) && ListsNodes(s, action)
    ensures var listed := LogNodes(StartCollectors(s, action).s).s; var names := Names(NodeList(s, action));
      && JobsLeftAlone(listed.ticks) && LogsJobs(listed.w) == LogsJobs(s.w)
      && (forall t :: t in {COLLECT_LOGS, WAIT_FOR_JOBS, DELETE_JOBS} ==>
            (Finished(MyTasks(s, action), t) <==> Finished(MyTasks(listed, action), t)))
      && StageTook(listed, CreateOf(s, action), action, COLLECT_LOGS, JobNames(names), {})
      && (CreateOf(s, action).flow == OK && !Finished(MyTasks(s, action), COLLECT_LOGS) ==>
            JobNames(names) <= CreateOf(s, action).s.w.jobs.Keys)
      && StageTook(CreateOf(s, action).s, WaitOf(s, action), action, WAIT_FOR_JOBS, {}, {})
      && StageTook(WaitOf(s, action).s, DeleteOf(s, action), action, DELETE_JOBS, {}, AllJobs(names))
      && (DeleteOf(s, action).flow == OK && !Finished(MyTasks(WaitOf(s, action).s, action), DELETE_JOBS) ==>
            DeleteOf(s, action).s.w.jobs.Keys !! AllJobs(names))
  {
    hide StartCollectors, LogNodes, CreateStage, WaitStage, DeleteStage, IsLogsJob, DoneSince;
    var started := StartCollectors(s, action).s;
    CollectorsAccount(s, action);
    ListingIsStep(started);
    var listed := LogNodes(started).s;
    CreateStageTakes(listed, action, NodeList(s, action));
    WaitStageTakes(CreateOf(s, action).s, action, NodeList(s, action));
    DeleteStageTakes(WaitOf(s, action).s, action, NodeList(s, action));
  }

  /** What one visit does to the node jobs, however it ends: only the two stages matter, and a visit that enters
      neither leaves the jobs alone. */
  lemma VisitAccounts(s: Sys, action: string)
    requires JobsLeftAlone(s.ticks) && Enumerates(NodeList(s, action), Found(s, action))
    ensures var left := Collect(s, action).r.s; var names := JobNames(Found(s, action));
      var before, after := LogsJobs(s.w), LogsJobs(left.w);
      var creates, deletes := EntersCreate(s, action), EntersDelete(s, action);
      && before - (if deletes then names else {}) <= after <= before + (if creates then names else {})
      && (creates && CreateOf(s, action).flow == OK && !deletes ==> names <= after)
      && (deletes && DeleteOf(s, action).flow == OK ==> after !! names)
      && (Finished(MyTasks(left, action), COLLECT_LOGS) <==>
            Finished(MyTasks(s, action), COLLECT_LOGS) || (creates && CreateOf(s, action).flow == OK))
      && (Finished(MyTasks(left, action), DELETE_JOBS) <==>
            Finished(MyTasks(s, action), DELETE_JOBS) || (deletes && DeleteOf(s, action).flow == OK))
  {
    hide StartCollectors, CreateStage, WaitStage, DeleteStage, LogNodes, Collect, IsLogsJob, DeleteOf, CreateOf, WaitOf;
    var nodes := Found(s, action);
    NamesAreLogsJobs(nodes);
    CollectIsItsStages(s, action);
    assert Names(NodeList(s, action)) == nodes;
    if ListsNodes(s, action) {
      StagesOfVisit(s, action);
    } else {
      CollectorsAccount(s, action);
      ListingIsStep(StartCollectors(s, action).s);
    }
  }

  /** From one visit to the next: either visit's status was the one stored; the node jobs are as they were left. */
  ghost predicate CarriesOn(s: Sys, t: Sys, action: string)
  {
    var left := Collect(s, action).r.s;
    && (MyTasks(t, action) == MyTasks(left, action) || MyTasks(t, action) == MyTasks(s, action))
    && LogsJobs(t.w) == LogsJobs(left.w)
  }

  /** The visits of one requested action, from its first, with any listings, errors, deaths and lost status writes. */
  ghost predicate Journey(visits: seq<Sys>, action: string)
  {
    && visits != [] && MyTasks(visits[0], action) == map[]
    && (forall i :: 0 <= i < |visits| ==> JobsLeftAlone(visits[i].ticks))
    && (forall i :: 0 <= i < |visits| ==> Enumerates(NodeList(visits[i], action), Found(visits[i], action)))
    && (forall i :: 0 < i < |visits| ==> CarriesOn(visits[i - 1], visits[i], action))
  }

  /** Only visit c creates, only visit d deletes, and these two stages end well. */
  ghost predicate OneCreationOneDeletion(visits: seq<Sys>, action: string, c: nat, d: nat)
  {
    && c < |visits| && d < |visits|
    && (forall i :: 0 <= i < |visits| ==> (EntersCreate(visits[i], action) <==> i == c))
    && (forall i :: 0 <= i < |visits| ==> (EntersDelete(visits[i], action) <==> i == d))
    && CreateOf(visits[c], action).flow == OK && DeleteOf(visits[d], action).flow == OK
  }

  lemma DeletingFollowsCreating(s: Sys, action: string)
    requires EntersDelete(s, action)
    ensures EntersCreate(s, action) || Finished(MyTasks(s, action), COLLECT_LOGS)
  {
  }

  /** Visit c is the last to enter the creating stage, and of the visits from c on only d enters the deleting stage;
      these two stages end well. What the visits before c tried, and how often, does not matter. */
  ghost predicate LastCreationThenDeletion(visits: seq<Sys>, action: string, c: nat, d: nat)
  {
    && c <= d < |visits|
    && EntersCreate(visits[c], action) && CreateOf(visits[c], action).flow == OK
    && (forall i :: c < i < |visits| ==> !EntersCreate(visits[i], action))
    && (forall i :: c <= i < |visits| ==> (EntersDelete(visits[i], action) <==> i == d))
    && DeleteOf(visits[d], action).flow == OK
  }

  /** The account that looks only at what was there before the first visit and at the visits c and d. */
  ghost predicate Balances(visits: seq<Sys>, action: string, c: nat, d: nat)
    requires c < |visits| && d < |visits|
  {
    LogsJobs(Collect(visits[|visits| - 1], action).r.s.w)
      == LogsJobs(visits[0].w) + JobNames(Found(visits[c], action)) - JobNames(Found(visits[d], action))
  }

  /** When visit c begins, the node jobs are those of the start, apart from jobs of nodes that c or d list: no earlier
      attempt left, or took away, the job of any other node. */
  ghost predicate NothingAbandoned(visits: seq<Sys>, action: string, c: nat, d: nat)
    requires c < |visits| && d < |visits|
  {
    var listed := JobNames(Found(visits[c], action)) + JobNames(Found(visits[d], action));
    LogsJobs(visits[c].w) - listed == LogsJobs(visits[0].w) - listed
  }

  /** The node jobs after each visit from c on. */
  lemma {:induction false} JobsAfterVisit(visits: seq<Sys>, action: string, c: nat, d: nat, k: nat)
    requires Journey(visits, action) && LastCreationThenDeletion(visits, action, c, d) && c <= k < |visits|
    ensures LogsJobs(Collect(visits[k], action).r.s.w) == LogsJobs(visits[c].w) + JobNames(Found(visits[c], action))
      - (if d <= k then JobNames(Found(visits[d], action)) else {})
    decreases k
  {
    hide Collect, Found, JobsLeftAlone, LogsJobs, EntersCreate, EntersDelete, CreateOf, DeleteOf, NodeList;
    VisitAccounts(visits[k], action);
    if k > c {
      JobsAfterVisit(visits, action, c, d, k - 1);
      assert CarriesOn(visits[k - 1], visits[k], action);
    }
  }

  /** With any attempts before: what is left is what visit c found, and created, less the jobs of the nodes of d. The
      account from the first visit on balances if and only if no abandoned attempt left or took away the job of a node
      that neither c nor d lists. */
  lemma AccountBalancesExactly(visits: seq<Sys>, action: string, c: nat, d: nat)
    requires Journey(visits, action) && LastCreationThenDeletion(visits, action, c, d)
    ensures LogsJobs(Collect(visits[|visits| - 1], action).r.s.w)
      == LogsJobs(visits[c].w) + JobNames(Found(visits[c], action)) - JobNames(Found(visits[d], action))
    ensures Balances(visits, action, c, d) <==> NothingAbandoned(visits, action, c, d)
  {
    hide Collect, Found, LogsJobs, EntersCreate, EntersDelete, CreateOf, DeleteOf, Journey, JobNames;
    JobsAfterVisit(visits, action, c, d, |visits| - 1);
    SameBalance(LogsJobs(visits[c].w), LogsJobs(visits[0].w), JobNames(Found(visits[c], action)), JobNames(Found(visits[d], action)));
  }

  lemma SameBalance(a: set<string>, b: set<string>, plus: set<string>, minus: set<string>)
    ensures a + plus - minus == b + plus - minus <==> a - (plus + minus) == b - (plus + minus)
  {
    if a + plus - minus == b + plus - minus {
      forall x ensures x in a - (plus + minus) <==> x in b - (plus + minus) {
        assert x in a + plus - minus <==> x in b + plus - minus;
      }
    } else {
      var x :| (x in a + plus - minus) != (x in b + plus - minus);
      assert (x in a - (plus + minus)) != (x in b - (plus + minus));
    }
  }

  /** A creation repeated, or recorded in vain, over nodes that the last creation and the deletion list balances:
      however many attempts were cut short or lost. */
  lemma RetriesOverTheSameNodesBalance(visits: seq<Sys>, action: string, c: nat, d: nat)
    requires Journey(visits, action) && LastCreationThenDeletion(visits, action, c, d)
    requires EveryFound(visits, action, c) <= Found(visits[c], action) + Found(visits[d], action)
    ensures Balances(visits, action, c, d)
  {
    hide Collect, Found, LogsJobs, EntersCreate, EntersDelete, CreateOf, DeleteOf, Journey, Balances;
    JobsWithin(visits, action, c);
    AccountBalancesExactly(visits, action, c, d);
    assert JobNames(EveryFound(visits, action, c)) <= JobNames(Found(visits[c], action)) + JobNames(Found(visits[d], action));
  }

  /** Which nodes leave a job behind, if no other listed node shares their job: those that d does not list, and that c
      lists or an abandoned attempt left. */
  lemma WhoLeavesAJob(visits: seq<Sys>, action: string, c: nat, d: nat, n: string)
    requires Journey(visits, action) && LastCreationThenDeletion(visits, action, c, d)
    requires forall m :: m in Found(visits[c], action) + Found(visits[d], action) && AlikeBut(m, n) ==> m == n
    ensures LogsJob(n) in Collect(visits[|visits| - 1], action).r.s.w.jobs <==>
      n !in Found(visits[d], action) && (n in Found(visits[c], action) || LogsJob(n) in visits[c].w.jobs)
  {
    hide Collect, Found, JobsLeftAlone, AlikeBut, IsLogsJob, Journey, EntersCreate, EntersDelete, CreateOf, DeleteOf;
    var first, last := Found(visits[c], action), Found(visits[d], action);
    AccountBalancesExactly(visits, action, c, d);
    LogsJobShape(n);
    forall m | m in first + last && LogsJob(m) == LogsJob(n) ensures m == n { JobsClashExactly(m, n); }
    assert LogsJob(n) in JobNames(first) <==> n in first;
    assert LogsJob(n) in JobNames(last) <==> n in last;
    var w := Collect(visits[|visits| - 1], action).r.s.w;
    assert LogsJob(n) in w.jobs <==> LogsJob(n) in LogsJobs(w);
    assert LogsJob(n) in visits[c].w.jobs <==> LogsJob(n) in LogsJobs(visits[c].w);
  }

  /** Before the only creation nothing happens to the node jobs. */
  lemma {:induction false} NothingBeforeCreation(visits: seq<Sys>, action: string, c: nat, d: nat, k: nat)
    requires Journey(visits, action) && OneCreationOneDeletion(visits, action, c, d) && k <= c
    ensures !Finished(MyTasks(visits[k], action), COLLECT_LOGS) && LogsJobs(visits[k].w) == LogsJobs(visits[0].w)
    ensures d >= k
    decreases k
  {
    hide Collect, Found, JobsLeftAlone, LogsJobs, EntersCreate, EntersDelete, CreateOf, DeleteOf, NodeList;
    if k > 0 {
      NothingBeforeCreation(visits, action, c, d, k - 1);
      assert CarriesOn(visits[k - 1], visits[k], action);
      VisitAccounts(visits[k - 1], action);
      if k - 1 == d { DeletingFollowsCreating(visits[d], action); }
    }
  }

  /** If only one visit creates and one deletes, both to the end, and whatever the other visits run into, the account
      balances. */
  lemma LeftBehindExactly(visits: seq<Sys>, action: string, c: nat, d: nat)
    requires Journey(visits, action) && OneCreationOneDeletion(visits, action, c, d)
    ensures c <= d
    ensures LogsJobs(Collect(visits[|visits| - 1], action).r.s.w)
      == LogsJobs(visits[0].w) + JobNames(Found(visits[c], action)) - JobNames(Found(visits[d], action))
  {
    hide Collect, Found, JobsLeftAlone, LogsJobs, EntersCreate, EntersDelete, CreateOf, DeleteOf, NodeList;
    NothingBeforeCreation(visits, action, c, d, c);
    AccountBalancesExactly(visits, action, c, d);
  }

  /** So if no two of the nodes share a job, exactly the nodes that left in between leave a job behind. */
  lemma LeaversLeaveJobs(visits: seq<Sys>, action: string, c: nat, d: nat, n: string)
    requires Journey(visits, action) && OneCreationOneDeletion(visits, action, c, d) && LogsJobs(visits[0].w) == {}
    requires var all := Found(visits[c], action) + Found(visits[d], action);
      n in all && forall m :: m in all && AlikeBut(m, n) ==> m == n
    ensures LogsJob(n) in Collect(visits[|visits| - 1], action).r.s.w.jobs <==>
      n in Found(visits[c], action) && n !in Found(visits[d], action)
  {
    hide Collect, Found, JobsLeftAlone, AlikeBut, Journey, EntersCreate, EntersDelete, CreateOf, DeleteOf;
    NothingBeforeCreation(visits, action, c, d, c);
    WhoLeavesAJob(visits, action, c, d, n);
  }

  /** All nodes that any of the first k visits listed. */
  function EveryFound(visits: seq<Sys>, action: string, k: nat): set<string>
    requires k <= |visits|
  {
    if k == 0 then {} else EveryFound(visits, action, k - 1) + Found(visits[k - 1], action)
  }

  lemma {:induction false} JobsWithin(visits: seq<Sys>, action: string, k: nat)
    requires Journey(visits, action) && k < |visits|
    ensures LogsJobs(visits[k].w) <= LogsJobs(visits[0].w) + JobNames(EveryFound(visits, action, k))
    ensures LogsJobs(visits[0].w) - JobNames(EveryFound(visits, action, k)) <= LogsJobs(visits[k].w)
    decreases k
  {
    hide Collect, Found, JobsLeftAlone, LogsJobs, EntersCreate, EntersDelete, CreateOf, DeleteOf, NodeList;
    if k > 0 {
      JobsWithin(visits, action, k - 1);
      assert CarriesOn(visits[k - 1], visits[k], action);
      VisitAccounts(visits[k - 1], action);
    }
  }

  /** For all visits: what is left is within what was there before and the jobs of every node ever listed; and after a
      visit that deletes to the end, none of its own nodes' jobs is left. */
  lemma LeftBehindAtMost(visits: seq<Sys>, action: string)
    requires Journey(visits, action)
    ensures var last := visits[|visits| - 1];
      var gone := if EntersDelete(last, action) && DeleteOf(last, action).flow == OK then JobNames(Found(last, action)) else {};
      LogsJobs(Collect(last, action).r.s.w)
        <= LogsJobs(visits[0].w) + JobNames(EveryFound(visits, action, |visits|)) - gone
  {
    hide Collect, Found, JobsLeftAlone, LogsJobs, EntersCreate, EntersDelete, CreateOf, DeleteOf, NodeList;
    JobsWithin(visits, action, |visits| - 1);
    VisitAccounts(visits[|visits| - 1], action);
  }

  // ---- a creation cut short and repeated ---------------------------------------------------------

  lemma {:induction false} JobStaysWhenNobodyFindsIt(visits: seq<Sys>, action: string, job: string, k: nat)
    requires Journey(visits, action) && 1 <= k < |visits| && job in LogsJobs(visits[1].w)
    requires forall i :: 1 <= i < |visits| ==> job !in JobNames(Found(visits[i], action))
    ensures job in LogsJobs(visits[k].w) && job in LogsJobs(Collect(visits[k], action).r.s.w)
    decreases k
  {
    hide Collect, Found, JobsLeftAlone, LogsJobs, EntersCreate, EntersDelete, CreateOf, DeleteOf, NodeList;
    if k > 1 {
      JobStaysWhenNobodyFindsIt(visits, action, job, k - 1);
      assert CarriesOn(visits[k - 1], visits[k], action);
    }
    VisitAccounts(visits[k], action);
  }

  const NODE_A := Node("a", {CLIENT_LABEL})
  const NODE_B := Node("b", {CLIENT_LABEL})

  /** A first visit to nodes a and b that creates a's job and then fails on b's. */
  ghost predicate CutShort(s: Sys, action: string)
  {
    && MyTasks(s, action) == map[] && s.w.jobs == map[] && s.w.nodes == [NODE_A, NODE_B]
    && s.ticks == [ANSWERED, ANSWERED, ANSWERED, ANSWERED, ANSWERED, ANSWERED, REFUSED]
    && s.order({"a", "b"}) == ["a", "b"]
  }

  lemma CutShortLeavesOne(s: Sys, action: string)
    requires CutShort(s, action)
    ensures var c := Collect(s, action); var names := {DB_JOB, CONFIG_MAPS_JOB, LogsJob("a")};
      && c.r.flow == Fail(Unexpected) && c.r.s.w.jobs.Keys == names
      && !Finished(MyTasks(c.r.s, action), COLLECT_LOGS) && Found(s, action) == {"a", "b"}
  {
    hide Call, LogsJob;
    var started := CutShortStart(s, action);
    var listed := CutShortListing(started, action);
    assert LogNodes(started) == RanSet(listed, OK, {"a", "b"});
    CutShortCreation(listed, action);
  }

  lemma AnsweredJobStage(s: Sys, action: string, task: string, job: string, rest: seq<Tick>)
    requires s.ticks == [ANSWERED] + rest && job !in s.w.jobs && !Finished(MyTasks(s, action), task)
    ensures var r := JobStage(s, action, task, job);
      && r.flow == OK && r.s.ticks == rest && r.s.order == s.order && r.s.w.nodes == s.w.nodes
      && r.s.w.jobs == s.w.jobs[job := NEW_JOB] && OnlyTask(MyTasks(s, action), MyTasks(r.s, action), task)
  {
    hide Call;
    var started := WithTask(WithTouch(s, action), action, task, TASK_STARTED);
    AnsweredCall(started, CreateJob(job), rest);
  }

  lemma CutShortStart(s: Sys, action: string) returns (t: Sys)
    requires CutShort(s, action)
    ensures StartCollectors(s, action) == Ran(t, OK)
    ensures t.w.jobs == map[DB_JOB := NEW_JOB, CONFIG_MAPS_JOB := NEW_JOB] && t.w.nodes == s.w.nodes && t.order == s.order
    ensures t.ticks == s.ticks[2..] && !Finished(MyTasks(t, action), COLLECT_LOGS)
  {
    hide JobStage;
    assert DB_JOB[8] == 'd' && CONFIG_MAPS_JOB[8] == 'c';
    assert COLLECT_DB[7] == 'D' && COLLECT_CONFIG_MAPS[7] == 'C' && COLLECT_LOGS[7] == 'L';
    assert s.ticks == [ANSWERED] + s.ticks[1..] && s.ticks[1..] == [ANSWERED] + s.ticks[2..];
    AnsweredJobStage(s, action, COLLECT_DB, DB_JOB, s.ticks[1..]);
    var db := JobStage(s, action, COLLECT_DB, DB_JOB).s;
    AnsweredJobStage(db, action, COLLECT_CONFIG_MAPS, CONFIG_MAPS_JOB, s.ticks[2..]);
    t := JobStage(db, action, COLLECT_CONFIG_MAPS, CONFIG_MAPS_JOB).s;
  }

  lemma AnsweredListing(s: Sys, key: string, rest: seq<Tick>)
    requires s.ticks == [ANSWERED] + rest
    ensures var r := NodesWithLabel(s, key);
      && r == RanNodes(r.s, OK, Labelled(s.w.nodes, key)) && r.s.ticks == rest && r.s.order == s.order && r.s.cr == s.cr
      && r.s.w.nodes == s.w.nodes && r.s.w.jobs == s.w.jobs
  {
    hide Call;
    AnsweredCall(s, ListNodes(key), rest);
  }

  lemma CutShortListing(s: Sys, action: string) returns (t: Sys)
    requires s.w.nodes == [NODE_A, NODE_B] && s.ticks == [ANSWERED, ANSWERED, ANSWERED, ANSWERED, REFUSED]
    ensures LogNodes(s) == RanSet(t, OK, {"a", "b"})
    ensures t.w.jobs == s.w.jobs && t.order == s.order && t.cr == s.cr && t.ticks == [ANSWERED, REFUSED]
  {
    hide NodesWithLabel, Labelled;
    OnlyClients();
    assert s.ticks == [ANSWERED] + s.ticks[1..] && s.ticks[1..] == [ANSWERED] + s.ticks[2..]
      && s.ticks[2..] == [ANSWERED] + s.ticks[3..];
    AnsweredListing(s, CLIENT_LABEL, s.ticks[1..]);
    var clients := NodesWithLabel(s, CLIENT_LABEL).s;
    AnsweredListing(clients, TARGET_LABEL, s.ticks[2..]);
    var targets := NodesWithLabel(clients, TARGET_LABEL).s;
    AnsweredListing(targets, MGMT_LABEL, s.ticks[3..]);
    t := NodesWithLabel(targets, MGMT_LABEL).s;
  }

  lemma OnlyClients()
    ensures Labelled([NODE_A, NODE_B], CLIENT_LABEL) == ["a", "b"]
    ensures Labelled([NODE_A, NODE_B], TARGET_LABEL) == [] && Labelled([NODE_A, NODE_B], MGMT_LABEL) == []
  {
    assert CLIENT_LABEL[27] == 'c' && TARGET_LABEL[27] == 't' && MGMT_LABEL[27] == 'm';
    var tail := [NODE_A, NODE_B][1..];
    assert tail == [NODE_B] && tail[1..] == [];
    assert Labelled(tail, CLIENT_LABEL) == ["b"] && Labelled(tail, TARGET_LABEL) == [] && Labelled(tail, MGMT_LABEL) == [];
  }

  lemma CutShortCreation(s: Sys, action: string)
    requires s.ticks == [ANSWERED, REFUSED] && s.w.jobs == map[DB_JOB := NEW_JOB, CONFIG_MAPS_JOB := NEW_JOB]
    requires !Finished(MyTasks(s, action), COLLECT_LOGS)
    ensures var r := CreateStage(s, action, ["a", "b"]);
      && r.flow == Fail(Unexpected) && r.s.w.jobs.Keys == {DB_JOB, CONFIG_MAPS_JOB, LogsJob("a")}
      && !Finished(MyTasks(r.s, action), COLLECT_LOGS)
  {
    hide Call, LogsJob;
    LogsJobShape("a");
    var started := WithTask(WithTouch(s, action), action, COLLECT_LOGS, TASK_STARTED);
    assert started.ticks == [ANSWERED] + [REFUSED];
    AnsweredCall(started, CreateJob(LogsJob("a")), [REFUSED]);
    var one := StartJob(started, LogsJob("a")).s;
    assert one.ticks == [REFUSED] + [];
    RefusedCall(one, CreateJob(LogsJob("b")), []);
    assert ["a", "b"][1..] == ["b"];
    assert StartLogJobs(one, ["b"]).flow == Fail(Unexpected);
  }

  /** After such a visit, if node a has left when the creation is repeated, the job of a is still there at the end:
      the account by the creating and the deleting visit alone is short. */
  lemma RepeatedCreationLeavesMore(visits: seq<Sys>, action: string, c: nat, d: nat)
    requires Journey(visits, action) && CutShort(visits[0], action) && 1 <= c < |visits| && 1 <= d < |visits|
    requires forall i :: 1 <= i < |visits| ==> Found(visits[i], action) <= {"b"}
    ensures LogsJobs(Collect(visits[|visits| - 1], action).r.s.w)
      != LogsJobs(visits[0].w) + JobNames(Found(visits[c], action)) - JobNames(Found(visits[d], action))
  {
    hide Collect, Found, JobsLeftAlone, IsLogsJob, EntersCreate, EntersDelete, CreateOf, DeleteOf, NodeList;
    CutShortLeavesOne(visits[0], action);
    LogsJobShape("a");
    assert CarriesOn(visits[0], visits[1], action);
    forall i | 1 <= i < |visits| ensures LogsJob("a") !in JobNames(Found(visits[i], action)) { JobsOfAAndB(); }
    JobStaysWhenNobodyFindsIt(visits, action, LogsJob("a"), |visits| - 1);
  }

  /** There the condition fails, and so the account, as AccountBalancesExactly says: the first attempt was abandoned. */
  lemma RepeatedCreationIsAbandoned(visits: seq<Sys>, action: string, c: nat, d: nat)
    requires Journey(visits, action) && CutShort(visits[0], action) && LastCreationThenDeletion(visits, action, c, d)
    requires c > 0 && forall i :: 1 <= i < |visits| ==> Found(visits[i], action) <= {"b"}
    ensures !NothingAbandoned(visits, action, c, d) && !Balances(visits, action, c, d)
  {
    hide Collect, Found, JobsLeftAlone, IsLogsJob, EntersCreate, EntersDelete, CreateOf, DeleteOf, NodeList;
    CutShortLeavesOne(visits[0], action);
    LogsJobShape("a");
    assert CarriesOn(visits[0], visits[1], action);
    forall i | 1 <= i < |visits| ensures LogsJob("a") !in JobNames(Found(visits[i], action)) { JobsOfAAndB(); }
    var job := LogsJob("a");
    JobStaysWhenNobodyFindsIt(visits, action, job, c);
    AccountBalancesExactly(visits, action, c, d);
    var listed := JobNames(Found(visits[c], action)) + JobNames(Found(visits[d], action));
    assert job in LogsJobs(visits[c].w) - listed;
    assert visits[0].w.jobs == map[] && job !in LogsJobs(visits[0].w) - listed;
  }

  lemma JobsOfAAndB()
    ensures LogsJob("a") != LogsJob("b")
  {
    JobsClashExactly("a", "b");
  }
}
