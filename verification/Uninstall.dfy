/** Taking the cluster down: eight stages, re-entered every cycle until all are finished. */
module Uninstall {
  import opened Basics
  import opened Kube
  import opened OperatorState
  import opened Objects
  import opened Jobs
  import opened Tasks

  const UNINSTALL := "uninstall"
  const CLEAR_DB_JOB := "nvmesh-clear-db-job"
  const CLIENT_LABEL := "nvmesh.excelero.com/nvmesh-client"
  const TARGET_LABEL := "nvmesh.excelero.com/nvmesh-target"

  const STAGES: nat := 8

  function StageName(k: nat): string
  {
    if k == 0 then "removeAllWorkloads"
    else if k == 1 then "waitForWorkloadsToFinish"
    else if k == 2 then "clearDB"
    else if k == 3 then "waitForClearDBToFinish"
    else if k == 4 then "removeMongo"
    else if k == 5 then "uninstallClusterNodes"
    else if k == 6 then "deletePVCs"
    else "deleteClusterServiceAccount"
  }

  // ---- stage 1: removeAllWorkloads -------------------------------------------------------------

  function RemoveWorkloads(s: Sys): Ran
  {
    var core := ReconcileDir(s, s.w.res.coreComponent, s.w.res.core, true);
    if core.flow != OK then core
    else
      var csi := ReconcileDir(core.s, s.w.res.csiComponent, s.w.res.csi, true);
      if csi.flow != OK then csi
      else ReconcileDir(csi.s, s.w.res.mgmtComponent, s.w.res.mgmt, true)
  }

  method RemoveAllWorkloadsExceptMongo(op: Operator) returns (flow: Flow)
    modifies op
    ensures Ran(op.Now(), flow) == RemoveWorkloads(old(op.Now()))
  {
    var res := op.cluster.res;
    flow := ReconcileYamlObjectsFromDir(op, res.coreComponent, res.core, true);
    if flow != OK { return; }
    flow := ReconcileYamlObjectsFromDir(op, res.csiComponent, res.csi, true);
    if flow != OK { return; }
    flow := ReconcileYamlObjectsFromDir(op, res.mgmtComponent, res.mgmt, true);
  }

  // ---- stage 2: waitForWorkloadsToFinish -------------------------------------------------------

  function AwaitDrain(s: Sys): Ran
  {
    var listed := Call(s, ListWorkloadPods);
    match listed.reply
    case Silence => Ran(listed.s, Killed)
    case Fails(e) => Ran(listed.s, Fail(e))
    case PodsAre(pods) => Ran(listed.s, if |pods| > 0 then Return(Requeue(1), None) else OK)
    case _ => Ran(listed.s, OK)
  }

  method WaitForWorkloadsToFinish(op: Operator) returns (flow: Flow)
    modifies op
    ensures Ran(op.Now(), flow) == AwaitDrain(old(op.Now()))
  {
    var listed := op.Call(ListWorkloadPods);
    if listed.Silence? { return Killed; }
    if listed.Fails? { return Fail(listed.error); }
    if listed.PodsAre? && |listed.pods| > 0 { return Return(Requeue(1), None); }
    return OK;
  }

  // ---- stage 4: waitForClearDBToFinish (stage 3 only starts the job) ---------------------------

  /** A job that failed, is missing or cannot be read is only logged; it is deleted either way. */
  function AwaitClearDb(s: Sys): Ran
  {
    var waited := WaitForJob(s, CLEAR_DB_JOB);
    if waited.flow.Killed? || waited.flow.result.requeue then waited
    else RemoveJob(waited.s, CLEAR_DB_JOB)
  }

  method WaitForClearDBToFinish(op: Operator) returns (flow: Flow)
    modifies op
    ensures Ran(op.Now(), flow) == AwaitClearDb(old(op.Now()))
  {
    flow := WaitForJobToFinish(op, CLEAR_DB_JOB);
    if flow.Killed? || flow.result.requeue { return; }
    flow := DeleteJobAndPods(op, CLEAR_DB_JOB);
  }

  // ---- stage 6: uninstallClusterNodes ----------------------------------------------------------

  function Sanitize(s: string): string
  {
    if s == "" then "" else [if s[0] == '.' then '-' else s[0]] + Sanitize(s[1..])
  }

  function UninstallJob(node: string): string
  {
    "n-uninstall-" + Sanitize(node)
  }

  datatype RanNodes = RanNodes(s: Sys, flow: Flow, nodes: seq<string>)

  function NodesWithLabel(s: Sys, key: string): RanNodes
  {
    var listed := Call(s, ListNodes(key));
    match listed.reply
    case Silence => RanNodes(listed.s, Killed, [])
    case Fails(e) => RanNodes(listed.s, if e.NotFound? then OK else Fail(e), [])
    case NodesAre(names) => RanNodes(listed.s, OK, names)
    case _ => RanNodes(listed.s, OK, [])
  }

  method GetNodesWithLabel(op: Operator, key: string) returns (flow: Flow, names: seq<string>)
    modifies op
    ensures RanNodes(op.Now(), flow, names) == NodesWithLabel(old(op.Now()), key)
  {
    var listed := op.Call(ListNodes(key));
    if listed.Silence? { return Killed, []; }
    if listed.Fails? { return if listed.error.NotFound? then OK else Fail(listed.error), []; }
    if listed.NodesAre? { return OK, listed.names; }
    return OK, [];
  }

  function Names(names: seq<string>): set<string>
  {
    set n | n in names
  }

  datatype RanSet = RanSet(s: Sys, flow: Flow, nodes: set<string>)

  /** The union of the client-labelled and the target-labelled nodes. */
  function ClusterNodes(s: Sys): RanSet
  {
    var clients := NodesWithLabel(s, CLIENT_LABEL);
    if clients.flow != OK then RanSet(clients.s, clients.flow, {})
    else
      var targets := NodesWithLabel(clients.s, TARGET_LABEL);
      if targets.flow != OK then RanSet(targets.s, targets.flow, {})
      else RanSet(targets.s, OK, Names(clients.nodes) + Names(targets.nodes))
  }

  method GetAllNVMeshClusterNodes(op: Operator) returns (flow: Flow, nodeSet: set<string>)
    modifies op
    ensures RanSet(op.Now(), flow, nodeSet) == ClusterNodes(old(op.Now()))
  {
    var clients, targets;
    flow, clients := GetNodesWithLabel(op, CLIENT_LABEL);
    if flow != OK { return flow, {}; }
    flow, targets := GetNodesWithLabel(op, TARGET_LABEL);
    if flow != OK { return flow, {}; }
    nodeSet := AddNodes({}, clients);
    nodeSet := AddNodes(nodeSet, targets);
    return OK, nodeSet;
  }

  /** Insert the nodes that are not in the set yet. */
  method AddNodes(nodes: set<string>, more: seq<string>) returns (nodeSet: set<string>)
    ensures nodeSet == nodes + Names(more)
  {
    nodeSet := nodes;
    for i := 0 to |more|
      invariant nodeSet == nodes + Names(more[..i])
    {
      if more[i] !in nodeSet { nodeSet := nodeSet + {more[i]}; }
    }
    assert more[..|more|] == more;
  }

  /** A failure to create one job is logged and forgotten. */
  function StartUninstallJobs(s: Sys, nodes: seq<string>): Ran
    decreases |nodes|
  {
    if nodes == [] then Ran(s, OK)
    else
      var one := StartJob(s, UninstallJob(nodes[0]));
      if one.flow.Killed? then one else StartUninstallJobs(one.s, nodes[1..])
  }

  function AwaitUninstallJobs(s: Sys, nodes: seq<string>): Ran
    decreases |nodes|
  {
    if nodes == [] then Ran(s, OK)
    else
      var one := WaitForJob(s, UninstallJob(nodes[0]));
      if one.flow != OK then one else AwaitUninstallJobs(one.s, nodes[1..])
  }

  function DeleteUninstallJobs(s: Sys, nodes: seq<string>): Ran
    decreases |nodes|
  {
    if nodes == [] then Ran(s, OK)
    else
      var one := RemoveJob(s, UninstallJob(nodes[0]));
      if one.flow != OK then one else DeleteUninstallJobs(one.s, nodes[1..])
  }

  function UninstallNodes(s: Sys, nodes: seq<string>): Ran
  {
    var started := StartUninstallJobs(s, nodes);
    if started.flow != OK then started
    else
      var waited := AwaitUninstallJobs(started.s, nodes);
      if waited.flow != OK then waited
      else DeleteUninstallJobs(waited.s, nodes)
  }

  function UninstallClusterNodes(s: Sys): Ran
  {
    var listed := ClusterNodes(s);
    if listed.flow != OK then Ran(listed.s, listed.flow)
    else UninstallNodes(listed.s, s.order(listed.nodes))
  }

  method RunUninstallJobs(op: Operator, nodeList: seq<string>) returns (flow: Flow)
    modifies op
    ensures Ran(op.Now(), flow) == StartUninstallJobs(old(op.Now()), nodeList)
  {
    var i := 0;
    while i < |nodeList|
      invariant i <= |nodeList|
      invariant StartUninstallJobs(op.Now(), nodeList[i..]) == StartUninstallJobs(old(op.Now()), nodeList)
    {
      assert nodeList[i..][0] == nodeList[i] && nodeList[i..][1..] == nodeList[i + 1..];
      flow := RunJob(op, UninstallJob(nodeList[i]));
      if flow.Killed? { return; }
      i := i + 1;
    }
    return OK;
  }

  method WaitForUninstallCompletion(op: Operator, nodeList: seq<string>) returns (flow: Flow)
    modifies op
    ensures Ran(op.Now(), flow) == AwaitUninstallJobs(old(op.Now()), nodeList)
  {
    var i := 0;
    while i < |nodeList|
      invariant i <= |nodeList|
      invariant AwaitUninstallJobs(op.Now(), nodeList[i..]) == AwaitUninstallJobs(old(op.Now()), nodeList)
    {
      assert nodeList[i..][0] == nodeList[i] && nodeList[i..][1..] == nodeList[i + 1..];
      flow := WaitForJobToFinish(op, UninstallJob(nodeList[i]));
      if flow != OK { return; }
      i := i + 1;
    }
    return OK;
  }

  method DeleteNodeJobs(op: Operator, nodeList: seq<string>) returns (flow: Flow)
    modifies op
    ensures Ran(op.Now(), flow) == DeleteUninstallJobs(old(op.Now()), nodeList)
  {
    var i := 0;
    while i < |nodeList|
      invariant i <= |nodeList|
      invariant DeleteUninstallJobs(op.Now(), nodeList[i..]) == DeleteUninstallJobs(old(op.Now()), nodeList)
    {
      assert nodeList[i..][0] == nodeList[i] && nodeList[i..][1..] == nodeList[i + 1..];
      flow := DeleteJobAndPods(op, UninstallJob(nodeList[i]));
      if flow != OK { return; }
      i := i + 1;
    }
    return OK;
  }

  method UninstallAllNodes(op: Operator) returns (flow: Flow)
    modifies op
    ensures Ran(op.Now(), flow) == UninstallClusterNodes(old(op.Now()))
  {
    hide NodesWithLabel, StartUninstallJobs, AwaitUninstallJobs, DeleteUninstallJobs;
    var order := op.order;
    var nodeSet;
    flow, nodeSet := GetAllNVMeshClusterNodes(op);
    if flow != OK { return; }
    var nodeList := order(nodeSet);
    flow := RunUninstallJobs(op, nodeList);
    if flow != OK { return; }
    flow := WaitForUninstallCompletion(op, nodeList);
    if flow != OK { return; }
    flow := DeleteNodeJobs(op, nodeList);
  }

  // ---- stage 7: deletePVCs ---------------------------------------------------------------------

  /** A claim that cannot be deleted is logged and forgotten. */
  function RemoveClaims(s: Sys, names: seq<string>): Ran
    decreases |names|
  {
    if names == [] then Ran(s, OK)
    else
      var one := RemoveObject(s, Key(PVC, names[0]));
      if one.flow.Killed? then one else RemoveClaims(one.s, names[1..])
  }

  function DeletePvcs(s: Sys): Ran
  {
    var listed := Call(s, ListMarkedPvcs);
    match listed.reply
    case Silence => Ran(listed.s, Killed)
    case Fails(e) => Ran(listed.s, Fail(e))
    case PvcsAre(names) => RemoveClaims(listed.s, names)
    case _ => Ran(listed.s, OK)
  }

  method DeletePVCs(op: Operator) returns (flow: Flow)
    modifies op
    ensures Ran(op.Now(), flow) == DeletePvcs(old(op.Now()))
  {
    var listed := op.Call(ListMarkedPvcs);
    if listed.Silence? { return Killed; }
    if listed.Fails? { return Fail(listed.error); }
    if !listed.PvcsAre? { return OK; }
    var names := listed.names;
    var i := 0;
    while i < |names|
      invariant i <= |names|
      invariant RemoveClaims(op.Now(), names[i..]) == DeletePvcs(old(op.Now()))
    {
      assert names[i..][0] == names[i] && names[i..][1..] == names[i + 1..];
      flow := MakeSureObjectRemoved(op, Key(PVC, names[i]));
      if flow.Killed? { return; }
      i := i + 1;
    }
    return OK;
  }

  // ---- stage 8: deleteClusterServiceAccount ----------------------------------------------------

  /** An error here asks for a retry as well. */
  function Retrying(r: Ran): Ran
  {
    if r.flow.Killed? || r.flow == OK then r else Ran(r.s, Return(Requeue(1), r.flow.err))
  }

  function RemoveServiceAccount(s: Sys): Ran
  {
    var account := RemoveObject(s, SERVICE_ACCOUNT.key);
    if account.flow != OK then Retrying(account)
    else
      var role := RemoveObject(account.s, CLUSTER_ROLE.key);
      if role.flow != OK then Retrying(role)
      else Retrying(RemoveObject(role.s, ROLE_BINDING.key))
  }

  method DeleteClusterServiceAccount(op: Operator) returns (flow: Flow)
    modifies op
    ensures Ran(op.Now(), flow) == RemoveServiceAccount(old(op.Now()))
  {
    flow := MakeSureObjectRemoved(op, SERVICE_ACCOUNT.key);
    if flow != OK { return if flow.Killed? then Killed else Return(Requeue(1), flow.err); }
    flow := MakeSureObjectRemoved(op, CLUSTER_ROLE.key);
    if flow != OK { return if flow.Killed? then Killed else Return(Requeue(1), flow.err); }
    flow := MakeSureObjectRemoved(op, ROLE_BINDING.key);
    if flow != OK { return if flow.Killed? then Killed else Return(Requeue(1), flow.err); }
  }

  // ---- the stage loop --------------------------------------------------------------------------

  function RunStage(s: Sys, k: nat): Ran
  {
    if k == 0 then RemoveWorkloads(s)
    else if k == 1 then AwaitDrain(s)
    else if k == 2 then StartJob(s, CLEAR_DB_JOB)
    else if k == 3 then AwaitClearDb(s)
    else if k == 4 then ReconcileDir(s, s.w.res.mgmtComponent, s.w.res.mongo, true)
    else if k == 5 then UninstallClusterNodes(s)
    else if k == 6 then DeletePvcs(s)
    else RemoveServiceAccount(s)
  }

  method Run(op: Operator, k: nat) returns (flow: Flow)
    modifies op
    ensures Ran(op.Now(), flow) == RunStage(old(op.Now()), k)
  {
    if k == 0 { flow := RemoveAllWorkloadsExceptMongo(op); }
    else if k == 1 { flow := WaitForWorkloadsToFinish(op); }
    else if k == 2 { flow := RunJob(op, CLEAR_DB_JOB); }
    else if k == 3 { flow := WaitForClearDBToFinish(op); }
    else if k == 4 { flow := ReconcileYamlObjectsFromDir(op, op.cluster.res.mgmtComponent, op.cluster.res.mongo, true); }
    else if k == 5 { flow := UninstallAllNodes(op); }
    else if k == 6 { flow := DeletePVCs(op); }
    else { flow := DeleteClusterServiceAccount(op); }
  }

  /** Run stage k unless it is finished; a stage that asks to be run again drops its error. */
  function StageTurn(s: Sys, k: nat): Ran
  {
    var seen := WithTouch(s, UNINSTALL);
    if Finished(TasksOf(s.cr.status, UNINSTALL), StageName(k)) then Ran(seen, OK)
    else
      var r := RunStage(WithTask(seen, UNINSTALL, StageName(k), TASK_STARTED), k);
      if r.flow.Killed? then r
      else if r.flow.result.requeue then Ran(r.s, Return(r.flow.result, None))
      else if r.flow.err.Some? then Ran(r.s, Return(DO_NOT_REQUEUE, r.flow.err))
      else Ran(WithTask(r.s, UNINSTALL, StageName(k), TASK_FINISHED), OK)
  }

  method TakeStage(op: Operator, k: nat) returns (flow: Flow)
    modifies op
    ensures Ran(op.Now(), flow) == StageTurn(old(op.Now()), k)
  {
    var finished := IsTaskFinished(op, UNINSTALL, StageName(k));
    if finished { return OK; }
    SetTaskStatus(op, UNINSTALL, StageName(k), TASK_STARTED);
    flow := Run(op, k);
    if flow.Killed? { return; }
    if flow.result.requeue { return Return(flow.result, None); }
    if flow.err.Some? { return Return(DO_NOT_REQUEUE, flow.err); }
    SetTaskStatus(op, UNINSTALL, StageName(k), TASK_FINISHED);
    return OK;
  }

  /** The stages from k on, until one is not done. */
  function RunStages(s: Sys, k: nat): Ran
    decreases STAGES - k
  {
    if k >= STAGES then Ran(s, OK)
    else
      var r := StageTurn(s, k);
      if r.flow != OK then r else RunStages(r.s, k + 1)
  }

  /** All stages done: mark the action complete and switch every component off. */
  function SwitchedOff(s: Sys): Sys
  {
    var done := WithTask(s, UNINSTALL, ACTION_COMPLETE, TASK_FINISHED);
    done.(cr := done.cr.(spec := done.cr.spec.(coreDisabled := true, csiDisabled := true, mgmtDisabled := true)))
  }

  function TakeDown(s: Sys): Ran
  {
    if s.cr.spec.skipUninstall then Ran(s, OK)
    else
      var r := RunStages(s, 0);
      if r.flow != OK then r else Ran(SwitchedOff(r.s), OK)
  }

  method UninstallCluster(op: Operator) returns (flow: Flow)
    modifies op
    ensures Ran(op.Now(), flow) == TakeDown(old(op.Now()))
  {
    if op.cr.spec.skipUninstall { return OK; }
    var k := 0;
    while k < STAGES
      invariant k <= STAGES
      invariant RunStages(op.Now(), k) == RunStages(old(op.Now()), 0)
    {
      flow := TakeStage(op, k);
      if flow != OK { return; }
      k := k + 1;
    }
    SetTaskStatus(op, UNINSTALL, ACTION_COMPLETE, TASK_FINISHED);
    op.cr := op.cr.(spec := op.cr.spec.(csiDisabled := true));
    op.cr := op.cr.(spec := op.cr.spec.(mgmtDisabled := true));
    op.cr := op.cr.(spec := op.cr.spec.(coreDisabled := true));
    return OK;
  }
}
