/** The collect-logs action: five stages over jobs on every node of the cluster. */
module CollectLogs {
  import opened Basics
  import opened Kube
  import opened OperatorState
  import opened Jobs
  import opened Tasks
  import opened Uninstall

  const COLLECT_DB := "CollectDB"
  const COLLECT_CONFIG_MAPS := "CollectConfigMaps"
  const COLLECT_LOGS := "CollectLogs"
  const WAIT_FOR_JOBS := "waitForJobsToFinish"
  const DELETE_JOBS := "DeleteJobs"

  const DB_JOB := "collect-db"
  const CONFIG_MAPS_JOB := "collect-config-maps"
  const MGMT_LABEL := "nvmesh.excelero.com/nvmesh-management"

  function LogsJob(node: string): string
  {
    "collect-logs-" + Sanitize(node)
  }

  /** Run `body` as a stage: started before, finished after it succeeds. */
  function Staged(s: Sys, action: string, task: string, body: Ran): Ran
  {
    if body.flow == OK then Ran(WithTask(body.s, action, task, TASK_FINISHED), OK) else body
  }

  function JobStage(s: Sys, action: string, task: string, job: string): Ran
  {
    var seen := WithTouch(s, action);
    if Finished(TasksOf(s.cr.status, action), task) then Ran(seen, OK)
    else
      var started := WithTask(seen, action, task, TASK_STARTED);
      Staged(started, action, task, StartJob(started, job))
  }

  method StartJobStage(op: Operator, action: string, task: string, job: string) returns (flow: Flow)
    modifies op
    ensures Ran(op.Now(), flow) == JobStage(old(op.Now()), action, task, job)
  {
    var finished := IsTaskFinished(op, action, task);
    if finished { return OK; }
    SetTaskStatus(op, action, task, TASK_STARTED);
    flow := RunJob(op, job);
    if flow != OK { return; }
    SetTaskStatus(op, action, task, TASK_FINISHED);
  }

  /** Client-, target- and management-labelled nodes. */
  function LogNodes(s: Sys): RanSet
  {
    var cluster := ClusterNodes(s);
    if cluster.flow != OK then cluster
    else
      var mgmt := NodesWithLabel(cluster.s, MGMT_LABEL);
      if mgmt.flow != OK then RanSet(mgmt.s, mgmt.flow, {})
      else RanSet(mgmt.s, OK, cluster.nodes + Names(mgmt.nodes))
  }

  method GetAllLogNodes(op: Operator) returns (flow: Flow, nodeSet: set<string>)
    modifies op
    ensures RanSet(op.Now(), flow, nodeSet) == LogNodes(old(op.Now()))
  {
    flow, nodeSet := GetAllNVMeshClusterNodes(op);
    if flow != OK { return; }
    var mgmt;
    flow, mgmt := GetNodesWithLabel(op, MGMT_LABEL);
    if flow != OK { return flow, {}; }
    nodeSet := AddNodes(nodeSet, mgmt);
  }

  function StartLogJobs(s: Sys, nodes: seq<string>): Ran
    decreases |nodes|
  {
    if nodes == [] then Ran(s, OK)
    else
      var one := StartJob(s, LogsJob(nodes[0]));
      if one.flow != OK then one else StartLogJobs(one.s, nodes[1..])
  }

  function CreateStage(s: Sys, action: string, nodes: seq<string>): Ran
  {
    var seen := WithTouch(s, action);
    if Finished(TasksOf(s.cr.status, action), COLLECT_LOGS) then Ran(seen, OK)
    else
      var started := WithTask(seen, action, COLLECT_LOGS, TASK_STARTED);
      Staged(started, action, COLLECT_LOGS, StartLogJobs(started, nodes))
  }

  method CreateLogsJobs(op: Operator, action: string, nodeList: seq<string>) returns (flow: Flow)
    modifies op
    ensures Ran(op.Now(), flow) == CreateStage(old(op.Now()), action, nodeList)
  {
    var finished := IsTaskFinished(op, action, COLLECT_LOGS);
    if finished { return OK; }
    SetTaskStatus(op, action, COLLECT_LOGS, TASK_STARTED);
    ghost var started := op.Now();
    var i := 0;
    while i < |nodeList|
      invariant i <= |nodeList|
      invariant StartLogJobs(op.Now(), nodeList[i..]) == StartLogJobs(started, nodeList)
    {
      assert nodeList[i..][0] == nodeList[i] && nodeList[i..][1..] == nodeList[i + 1..];
      flow := RunJob(op, LogsJob(nodeList[i]));
      if flow != OK { return; }
      i := i + 1;
    }
    SetTaskStatus(op, action, COLLECT_LOGS, TASK_FINISHED);
    return OK;
  }

  /** Waiting here asks to be called again in three seconds. */
  function Slowly(r: Ran): Ran
  {
    if r.flow.Return? && r.flow.result.requeue then Ran(r.s, Return(Requeue(3), r.flow.err)) else r
  }

  /** For a node's job the three seconds are set on an error as well. */
  function SlowlyOrFailing(r: Ran): Ran
  {
    if r.flow.Killed? || r.flow == OK then r else Ran(r.s, Return(r.flow.result.(after := 3), r.flow.err))
  }

  function AwaitLogJobs(s: Sys, nodes: seq<string>): Ran
    decreases |nodes|
  {
    if nodes == [] then Ran(s, OK)
    else
      var one := WaitForJob(s, LogsJob(nodes[0]));
      if one.flow != OK then SlowlyOrFailing(one) else AwaitLogJobs(one.s, nodes[1..])
  }

  function AwaitJobs(s: Sys, nodes: seq<string>): Ran
  {
    var db := Slowly(WaitForJob(s, DB_JOB));
    if db.flow != OK then db
    else
      var maps := Slowly(WaitForJob(db.s, CONFIG_MAPS_JOB));
      if maps.flow != OK then maps else AwaitLogJobs(maps.s, nodes)
  }

  function WaitStage(s: Sys, action: string, nodes: seq<string>): Ran
  {
    var seen := WithTouch(s, action);
    if Finished(TasksOf(s.cr.status, action), WAIT_FOR_JOBS) then Ran(seen, OK)
    else
      var started := WithTask(seen, action, WAIT_FOR_JOBS, TASK_STARTED);
      Staged(started, action, WAIT_FOR_JOBS, AwaitJobs(started, nodes))
  }

  method AwaitNodeJobs(op: Operator, nodeList: seq<string>) returns (flow: Flow)
    modifies op
    ensures Ran(op.Now(), flow) == AwaitLogJobs(old(op.Now()), nodeList)
  {
    var i := 0;
    while i < |nodeList|
      invariant i <= |nodeList|
      invariant AwaitLogJobs(op.Now(), nodeList[i..]) == AwaitLogJobs(old(op.Now()), nodeList)
    {
      assert nodeList[i..][0] == nodeList[i] && nodeList[i..][1..] == nodeList[i + 1..];
      flow := WaitForJobToFinish(op, LogsJob(nodeList[i]));
      if flow.Killed? { return; }
      if flow.result.requeue || flow.err.Some? { return Return(flow.result.(after := 3), flow.err); }
      i := i + 1;
    }
    return OK;
  }

  method AwaitCollectJobs(op: Operator, nodeList: seq<string>) returns (flow: Flow)
    modifies op
    ensures Ran(op.Now(), flow) == AwaitJobs(old(op.Now()), nodeList)
  {
    flow := WaitForJobToFinish(op, DB_JOB);
    if flow.Killed? || flow.err.Some? { return; }
    if flow.result.requeue { return Return(Requeue(3), flow.err); }
    flow := WaitForJobToFinish(op, CONFIG_MAPS_JOB);
    if flow.Killed? || flow.err.Some? { return; }
    if flow.result.requeue { return Return(Requeue(3), flow.err); }
    flow := AwaitNodeJobs(op, nodeList);
  }

  method WaitForCollectJobs(op: Operator, action: string, nodeList: seq<string>) returns (flow: Flow)
    modifies op
    ensures Ran(op.Now(), flow) == WaitStage(old(op.Now()), action, nodeList)
  {
    var finished := IsTaskFinished(op, action, WAIT_FOR_JOBS);
    if finished { return OK; }
    SetTaskStatus(op, action, WAIT_FOR_JOBS, TASK_STARTED);
    flow := AwaitCollectJobs(op, nodeList);
    if flow != OK { return; }
    SetTaskStatus(op, action, WAIT_FOR_JOBS, TASK_FINISHED);
  }

  function DeleteLogJobs(s: Sys, nodes: seq<string>): Ran
    decreases |nodes|
  {
    if nodes == [] then Ran(s, OK)
    else
      var one := RemoveJob(s, LogsJob(nodes[0]));
      if one.flow != OK then one else DeleteLogJobs(one.s, nodes[1..])
  }

  function DeleteJobs(s: Sys, nodes: seq<string>): Ran
  {
    var db := RemoveJob(s, DB_JOB);
    if db.flow != OK then db
    else
      var maps := RemoveJob(db.s, CONFIG_MAPS_JOB);
      if maps.flow != OK then maps else DeleteLogJobs(maps.s, nodes)
  }

  /** A failed delete is retried next second, with its error; not finding something is no error. */
  function DeleteStage(s: Sys, action: string, nodes: seq<string>): Ran
  {
    var seen := WithTouch(s, action);
    if Finished(TasksOf(s.cr.status, action), DELETE_JOBS) then Ran(seen, OK)
    else
      var started := WithTask(seen, action, DELETE_JOBS, TASK_STARTED);
      var r := DeleteJobs(started, nodes);
      if r.flow.Killed? then r
      else if r.flow.err.Some? && !r.flow.err.value.NotFound? then Ran(r.s, Return(Requeue(1), r.flow.err))
      else Ran(WithTask(r.s, action, DELETE_JOBS, TASK_FINISHED), OK)
  }

  method DeleteCollectLogJobs(op: Operator, nodeList: seq<string>) returns (flow: Flow)
    modifies op
    ensures Ran(op.Now(), flow) == DeleteJobs(old(op.Now()), nodeList)
  {
    flow := DeleteJobAndPods(op, DB_JOB);
    if flow != OK { return; }
    flow := DeleteJobAndPods(op, CONFIG_MAPS_JOB);
    if flow != OK { return; }
    ghost var swept := op.Now();
    var i := 0;
    while i < |nodeList|
      invariant i <= |nodeList|
      invariant DeleteLogJobs(op.Now(), nodeList[i..]) == DeleteLogJobs(swept, nodeList)
    {
      assert nodeList[i..][0] == nodeList[i] && nodeList[i..][1..] == nodeList[i + 1..];
      flow := DeleteJobAndPods(op, LogsJob(nodeList[i]));
      if flow != OK { return; }
      i := i + 1;
    }
    return OK;
  }

  method DeleteCollectJobs(op: Operator, action: string, nodeList: seq<string>) returns (flow: Flow)
    modifies op
    ensures Ran(op.Now(), flow) == DeleteStage(old(op.Now()), action, nodeList)
  {
    var finished := IsTaskFinished(op, action, DELETE_JOBS);
    if finished { return OK; }
    SetTaskStatus(op, action, DELETE_JOBS, TASK_STARTED);
    flow := DeleteCollectLogJobs(op, nodeList);
    if flow.Killed? { return; }
    if flow.err.Some? && !flow.err.value.NotFound? { return Return(Requeue(1), flow.err); }
    SetTaskStatus(op, action, DELETE_JOBS, TASK_FINISHED);
    return OK;
  }

  /** What an action asks for besides its flow: to be taken off the spec's list. */
  datatype RanAction = RanAction(r: Ran, remove: bool)

  /** Creating, waiting for and deleting the node jobs, with the node list of this cycle. */
  function NodeStages(s: Sys, action: string, nodes: seq<string>): Ran
  {
    var created := CreateStage(s, action, nodes);
    if created.flow != OK then created
    else
      var waited := WaitStage(created.s, action, nodes);
      if waited.flow != OK then waited else DeleteStage(waited.s, action, nodes)
  }

  function StartCollectors(s: Sys, action: string): Ran
  {
    var db := JobStage(s, action, COLLECT_DB, DB_JOB);
    if db.flow != OK then db
    else JobStage(db.s, action, COLLECT_CONFIG_MAPS, CONFIG_MAPS_JOB)
  }

  function CollectOnNodes(s: Sys, action: string): Ran
  {
    var listed := LogNodes(s);
    if listed.flow != OK then Ran(listed.s, listed.flow)
    else NodeStages(listed.s, action, s.order(listed.nodes))
  }

  function Collect(s: Sys, action: string): RanAction
  {
    var started := StartCollectors(s, action);
    if started.flow != OK then RanAction(started, false)
    else
      var r := CollectOnNodes(started.s, action);
      if r.flow != OK then RanAction(r, false)
      else RanAction(Ran(WithTask(r.s, action, ACTION_COMPLETE, TASK_FINISHED), OK), true)
  }

  method RunNodeStages(op: Operator, action: string, nodeList: seq<string>) returns (flow: Flow)
    modifies op
    ensures Ran(op.Now(), flow) == NodeStages(old(op.Now()), action, nodeList)
  {
    flow := CreateLogsJobs(op, action, nodeList);
    if flow != OK { return; }
    flow := WaitForCollectJobs(op, action, nodeList);
    if flow != OK { return; }
    flow := DeleteCollectJobs(op, action, nodeList);
  }

  method RunCollectors(op: Operator, action: string) returns (flow: Flow)
    modifies op
    ensures Ran(op.Now(), flow) == StartCollectors(old(op.Now()), action)
  {
    flow := StartJobStage(op, action, COLLECT_DB, DB_JOB);
    if flow != OK { return; }
    flow := StartJobStage(op, action, COLLECT_CONFIG_MAPS, CONFIG_MAPS_JOB);
  }

  method RunOnNodes(op: Operator, action: string) returns (flow: Flow)
    modifies op
    ensures Ran(op.Now(), flow) == CollectOnNodes(old(op.Now()), action)
  {
    var order := op.order;
    var nodeSet;
    flow, nodeSet := GetAllLogNodes(op);
    if flow != OK { return; }
    flow := RunNodeStages(op, action, order(nodeSet));
  }

  method HandleCollectLogs(op: Operator, action: string) returns (remove: bool, flow: Flow)
    modifies op
    ensures RanAction(Ran(op.Now(), flow), remove) == Collect(old(op.Now()), action)
  {
    flow := RunCollectors(op, action);
    if flow != OK { return false, flow; }
    flow := RunOnNodes(op, action);
    if flow != OK { return false, flow; }
    SetTaskStatus(op, action, ACTION_COMPLETE, TASK_FINISHED);
    return true, OK;
  }
}
