/** What a pass over the pending actions takes off the list, and when it panics. The pass keeps the list and the indexes
    it started with, while the list in hand gets shorter with every action that completes. */
module ActionPass {
  import opened Basics
  import opened Kube
  import opened Jobs
  import opened Tasks
  import opened StatusUpdater
  import opened Uninstall
  import opened Finalizer
  import opened CollectLogs
  import opened Reconciler
  import opened Conditions

  // ---- the list in hand --------------------------------------------------------------------------

  /** The list after the first i entries, in turn, took away "their" index. */
  function Remaining(list: seq<Action>, i: nat): Option<seq<Action>>
  {
    if i == 0 then Some(list)
    else
      var before := Remaining(list, i - 1);
      if before.None? then None else ActionRemoved(before.value, i - 1)
  }

  /** Removing by the old index skips an entry each time: after i removals the entries from 2i on are left at its end. */
  lemma {:induction false} RemainingIsEverySecond(list: seq<Action>, i: nat)
    ensures Remaining(list, i).Some? <==> i == 0 || 2 * (i - 1) < |list|
    ensures Remaining(list, i).Some? ==>
      var left := Remaining(list, i).value;
      |left| == |list| - i && forall j :: i <= j < |left| ==> left[j] == list[i + j]
  {
    if i > 0 { RemainingIsEverySecond(list, i - 1); }
  }

  // ---- the copy through a turn -------------------------------------------------------------------

  lemma JobKeepsCopy(s: Sys, job: string)
    ensures StartJob(s, job).s.cr == s.cr && WaitForJob(s, job).s.cr == s.cr
    ensures StartJob(s, job).s.order == s.order
  {
    hide EnvRun, Effect, Answer, StateOf;
  }

  lemma ListingKeepsCopy(s: Sys, key: string)
    ensures NodesWithLabel(s, key).s.cr == s.cr
  {
    hide EnvRun, Effect, Answer;
  }

  lemma {:induction false} LoopsKeepCopy(s: Sys, nodes: seq<string>)
    ensures StartLogJobs(s, nodes).s.cr == s.cr
    ensures AwaitLogJobs(s, nodes).s.cr == s.cr
    ensures DeleteLogJobs(s, nodes).s.cr == s.cr
    decreases |nodes|
  {
    hide StartJob, WaitForJob, RemoveJob;
    if nodes != [] {
      var job := LogsJob(nodes[0]);
      JobKeepsCopy(s, job);
      RemovalKeepsCopy(s, job);
      LoopsKeepCopy(StartJob(s, job).s, nodes[1..]);
      LoopsKeepCopy(WaitForJob(s, job).s, nodes[1..]);
      LoopsKeepCopy(RemoveJob(s, job).s, nodes[1..]);
    }
  }

  lemma {:induction false} PodsKeepCopy(s: Sys, pods: seq<Pod>)
    ensures DeletePods(s, pods).s.cr == s.cr
    decreases |pods|
  {
    hide EnvRun, Effect, Answer;
    if pods != [] { PodsKeepCopy(Call(s, DeletePod(pods[0].name)).s, pods[1..]); }
  }

  lemma RemovalKeepsCopy(s: Sys, job: string)
    ensures RemoveJob(s, job).s.cr == s.cr
  {
    hide EnvRun, Effect, Answer, DeletePods;
    var gone := Call(s, DeleteJob(job)).s;
    var listed := Call(gone, ListJobPods(job));
    if listed.reply.PodsAre? { PodsKeepCopy(listed.s, listed.reply.pods); }
  }

  lemma NodeStagesKeepSpec(s: Sys, action: string, nodes: seq<string>)
    ensures NodeStages(s, action, nodes).s.cr.spec == s.cr.spec
  {
    hide CreateStage, WaitStage, DeleteStage;
    CreateKeepsSpec(s, action, nodes);
    var created := CreateStage(s, action, nodes).s;
    WaitKeepsSpec(created, action, nodes);
    var waited := WaitStage(created, action, nodes).s;
    DeleteKeepsSpec(waited, action, nodes);
  }

  lemma CreateKeepsSpec(s: Sys, action: string, nodes: seq<string>)
    ensures CreateStage(s, action, nodes).s.cr.spec == s.cr.spec
  {
    hide StartLogJobs;
    LoopsKeepCopy(WithTask(WithTouch(s, action), action, COLLECT_LOGS, TASK_STARTED), nodes);
  }

  lemma WaitKeepsSpec(s: Sys, action: string, nodes: seq<string>)
    ensures WaitStage(s, action, nodes).s.cr.spec == s.cr.spec
  {
    hide WaitForJob, AwaitLogJobs;
    var started := WithTask(WithTouch(s, action), action, WAIT_FOR_JOBS, TASK_STARTED);
    JobKeepsCopy(started, DB_JOB);
    var db := WaitForJob(started, DB_JOB).s;
    JobKeepsCopy(db, CONFIG_MAPS_JOB);
    LoopsKeepCopy(WaitForJob(db, CONFIG_MAPS_JOB).s, nodes);
  }

  lemma DeleteKeepsSpec(s: Sys, action: string, nodes: seq<string>)
    ensures DeleteStage(s, action, nodes).s.cr.spec == s.cr.spec
  {
    hide DeleteLogJobs, RemoveJob;
    var started := WithTask(WithTouch(s, action), action, DELETE_JOBS, TASK_STARTED);
    RemovalKeepsCopy(started, DB_JOB);
    var db := RemoveJob(started, DB_JOB).s;
    RemovalKeepsCopy(db, CONFIG_MAPS_JOB);
    LoopsKeepCopy(RemoveJob(db, CONFIG_MAPS_JOB).s, nodes);
  }

  lemma CollectKeepsSpec(s: Sys, action: string)
    ensures Collect(s, action).r.s.cr.spec == s.cr.spec
  {
    hide StartJob, NodesWithLabel, NodeStages;
    JobKeepsCopy(WithTask(WithTouch(s, action), action, COLLECT_DB, TASK_STARTED), DB_JOB);
    var db := JobStage(s, action, COLLECT_DB, DB_JOB).s;
    JobKeepsCopy(WithTask(WithTouch(db, action), action, COLLECT_CONFIG_MAPS, TASK_STARTED), CONFIG_MAPS_JOB);
    var started := StartCollectors(s, action).s;
    assert started.cr.spec == s.cr.spec;
    ListingKeepsCopy(started, CLIENT_LABEL);
    var clients := NodesWithLabel(started, CLIENT_LABEL).s;
    ListingKeepsCopy(clients, TARGET_LABEL);
    ListingKeepsCopy(NodesWithLabel(clients, TARGET_LABEL).s, MGMT_LABEL);
    var listed := LogNodes(started);
    NodeStagesKeepSpec(listed.s, action, started.order(listed.nodes));
  }

  /** The write that takes the entry off keeps the shorter list in hand, whether it succeeds or not. */
  lemma RetiringShortens(s: Sys, index: nat)
    ensures Retire(s, index).flow.Killed? || Retire(s, index).flow == OK
    ensures Retire(s, index).flow == OK ==>
      ActionRemoved(s.cr.spec.actions, index) == Some(Retire(s, index).s.cr.spec.actions)
  {
    hide EnvRun;
  }

  // ---- the pass ----------------------------------------------------------------------------------

  /** The first i turns of the pass, until one does not end well. */
  function Turns(s: Sys, pending: seq<Action>, i: nat): Ran
    requires i <= |pending|
  {
    if i == 0 then Ran(s, OK)
    else
      var before := Turns(s, pending, i - 1);
      if before.flow != OK then before else TurnOf(before.s, pending[i - 1], i - 1)
  }

  lemma {:induction false} PassGoesOn(s: Sys, pending: seq<Action>, i: nat)
    requires i <= |pending| && Turns(s, pending, i).flow == OK
    ensures HandleActions(s, pending, 0) == HandleActions(Turns(s, pending, i).s, pending[i..], i)
  {
    hide TurnOf;
    if i == 0 {
      assert pending[0..] == pending;
    } else {
      PassGoesOn(s, pending, i - 1);
      assert pending[i - 1..][0] == pending[i - 1] && pending[i - 1..][1..] == pending[i..];
    }
  }

  lemma TurnShortens(s: Sys, action: Action, index: nat)
    requires TurnOf(s, action, index).flow == OK
    ensures ActionRemoved(s.cr.spec.actions, index) == Some(TurnOf(s, action, index).s.cr.spec.actions)
  {
    hide Collect, Retire, PushStatus;
    CollectKeepsSpec(s, action.name);
    CollectAsks(s, action.name);
    RetiringShortens(TakeAction(s, action).r.s, index);
  }

  lemma CollectAsks(s: Sys, action: string)
    ensures Collect(s, action).remove <==> Collect(s, action).r.flow == OK
  {
    hide StartCollectors, CollectOnNodes;
  }

  lemma {:induction false} ListInHand(s: Sys, i: nat)
    requires i <= |s.cr.spec.actions| && Turns(s, s.cr.spec.actions, i).flow == OK
    ensures Remaining(s.cr.spec.actions, i) == Some(Turns(s, s.cr.spec.actions, i).s.cr.spec.actions)
  {
    hide TurnOf, ActionRemoved;
    var pending := s.cr.spec.actions;
    if i > 0 {
      ListInHand(s, i - 1);
      TurnShortens(Turns(s, pending, i - 1).s, pending[i - 1], i - 1);
    }
  }

  /** In a pass that has come to turn i, that turn's action completing: it panics if and only if twice i is past the
      original list; otherwise what goes is entry 2i of that list, whether or not that is the one that completed. */
  lemma PassPanicsExactly(s: Sys, i: nat)
    requires i < |s.cr.spec.actions| && Turns(s, s.cr.spec.actions, i).flow == OK
    requires TakeAction(Turns(s, s.cr.spec.actions, i).s, s.cr.spec.actions[i]).remove
    ensures var pending := s.cr.spec.actions; var done := TakeAction(Turns(s, pending, i).s, pending[i]).r.s;
      var list := done.cr.spec.actions;
      && (ActionRemoved(list, i).None? <==> 2 * i >= |pending|)
      && (2 * i < |pending| ==> i < |list| && list[i] == pending[2 * i])
      && (2 * i >= |pending| ==> TurnOf(Turns(s, pending, i).s, pending[i], i) == Ran(done, Killed))
      && (2 * i >= |pending| ==> HandleActions(s, pending, 0) == Ran(done, Killed))
  {
    hide Collect, PushStatus, PushCr;
    var pending := s.cr.spec.actions;
    var t := Turns(s, pending, i).s;
    ListInHand(s, i);
    RemainingIsEverySecond(pending, i);
    CollectKeepsSpec(t, pending[i].name);
    CollectAsks(t, pending[i].name);
    PassGoesOn(s, pending, i);
    assert pending[i..][0] == pending[i];
  }

  /** So with two entries, if the first completes and the second as well, the pass panics. */
  lemma SecondOfTwoPanics(s: Sys)
    requires |s.cr.spec.actions| == 2 && Turns(s, s.cr.spec.actions, 1).flow == OK
    requires TakeAction(Turns(s, s.cr.spec.actions, 1).s, s.cr.spec.actions[1]).remove
    ensures HandleActions(s, s.cr.spec.actions, 0).flow.Killed?
  {
    hide HandleActions, Turns, TakeAction;
    PassPanicsExactly(s, 1);
  }

  // ---- an error that is dropped ------------------------------------------------------------------

  /** Components that fail without asking for another cycle are not told of: the cycle goes on to the actions. */
  lemma ErrorIsDropped(s: Sys)
    requires ReconcileAll(s).flow.Return? && !ReconcileAll(s).flow.result.requeue
    ensures Converge(s) == Actions(ReconcileAll(s).s)
  {
    hide ReconcileAll, Actions;
  }

  /** A cluster with management and CSI off and a core file that cannot be read. */
  ghost predicate CoreIsUnreadable(s: Sys)
  {
    && s.w.res.core == [Unreadable] && s.w.res.csi == [] && s.w.res.mgmt == [] && s.w.res.mongo == []
    && s.cr.spec.mgmtDisabled && s.cr.spec.csiDisabled && !s.cr.spec.coreDisabled
    && s.cr.spec.actions == [] && s.cr.status == CrStatus(map[], []) && !s.cr.deleting
    && s.w.cr == Some(s.cr) && s.ticks == [ANSWERED]
  }

  /** There the core component fails, and the resource is stored as ready. */
  lemma ReadyAlthoughCoreFailed(s: Sys)
    requires CoreIsUnreadable(s)
    ensures ReconcileAll(s).flow.err == Some(Unexpected) && Converge(s).flow == OK
    ensures var v := Converge(s).s.w;
      v.cr.Some? && v.cr.value.status.conditions == [Condition("Ready", True, s.w.now, "", "")]
  {
    hide EnvRun;
    NothingToDoButCore(s);
    ErrorIsDropped(s);
    var ready := WithCondition(s, Ready(True, ""));
    assert ready.cr.status.conditions == [Condition("Ready", True, s.w.now, "", "")];
    assert ready.ticks == [ANSWERED] + [];
    AnsweredCall(ready, UpdateStatus(ready.cr), []);
    assert LiveStatuses(s.cr) == map[];
    assert WithStatus(ready, ready.cr.status) == ready;
    assert PushStatus(ready).flow == OK;
  }

  lemma NothingToDoButCore(s: Sys)
    requires CoreIsUnreadable(s)
    ensures ReconcileAll(s) == Ran(s, Return(DO_NOT_REQUEUE, Some(Unexpected)))
  {
  }
}
