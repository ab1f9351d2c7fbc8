/** One reconcile cycle of the operator. */
module Reconciler {
  import opened Basics
  import opened Kube
  import opened OperatorState
  import opened Objects
  import opened Tasks
  import opened StatusUpdater
  import opened Management
  import opened Uninstall
  import opened Finalizer
  import opened CollectLogs

  // ---- the components --------------------------------------------------------------------------

  function ReconcileCore(s: Sys): Ran
  {
    ReconcileDir(s, s.w.res.coreComponent, s.w.res.core, s.cr.spec.coreDisabled)
  }

  function ReconcileCsi(s: Sys): Ran
  {
    ReconcileDir(s, s.w.res.csiComponent, s.w.res.csi, s.cr.spec.csiDisabled)
  }

  /** Every component gets its turn; the first error is reported, and the delay is lost. */
  function ReconcileAll(s: Sys): Ran
  {
    var mgmt := ReconcileManagement(s);
    if mgmt.flow.Killed? then mgmt
    else
      var core := ReconcileCore(mgmt.s);
      if core.flow.Killed? then core
      else
        var csi := ReconcileCsi(core.s);
        if csi.flow.Killed? then csi
        else
          Ran(csi.s, Return(Result(mgmt.flow.result.requeue || core.flow.result.requeue || csi.flow.result.requeue, 0),
                            FirstError(FirstError(mgmt.flow.err, core.flow), csi.flow)))
  }

  method ReconcileAllComponents(op: Operator) returns (flow: Flow)
    modifies op
    ensures Ran(op.Now(), flow) == ReconcileAll(old(op.Now()))
  {
    var mgmt := ReconcileMgmt(op);
    if mgmt.Killed? { return Killed; }
    var core := ReconcileYamlObjectsFromDir(op, op.cluster.res.coreComponent, op.cluster.res.core, op.cr.spec.coreDisabled);
    if core.Killed? { return Killed; }
    var csi := ReconcileYamlObjectsFromDir(op, op.cluster.res.csiComponent, op.cluster.res.csi, op.cr.spec.csiDisabled);
    if csi.Killed? { return Killed; }
    var requeue := mgmt.result.requeue || core.result.requeue || csi.result.requeue;
    return Return(Result(requeue, 0), FirstError(FirstError(mgmt.err, core), csi));
  }

  // ---- actions ---------------------------------------------------------------------------------

  predicate Requested(spec: Spec, action: string)
  {
    exists i :: 0 <= i < |spec.actions| && spec.actions[i].name == action
  }

  function LiveStatuses(cr: Cr): map<string, TaskMap>
  {
    map a | a in cr.status.actions && Requested(cr.spec, a) :: cr.status.actions[a]
  }

  function DropStale(s: Sys): Ran
  {
    var live := LiveStatuses(s.cr);
    if live == s.cr.status.actions then Ran(s, OK)
    else
      var pushed := PushStatus(WithStatus(s, s.cr.status.(actions := live)));
      Ran(pushed.s, if pushed.flow.Killed? then Killed else Return(Requeue(0), None))
  }

  method RemoveFinishedActionStatuses(op: Operator) returns (flow: Flow)
    modifies op
    ensures Ran(op.Now(), flow) == DropStale(old(op.Now()))
  {
    hide PushStatus;
    var requeue := false;
    var before := op.cr.status.actions;
    var names := before.Keys;
    var kept := before;
    while names != {}
      invariant names <= before.Keys
      invariant kept == map a | a in before && (a in names || Requested(op.cr.spec, a)) :: before[a]
      invariant requeue <==> kept != before
      invariant op.Now() == old(op.Now())
      decreases |names|
    {
      var name :| name in names;
      var found := false;
      for i := 0 to |op.cr.spec.actions|
        invariant found <==> exists j :: 0 <= j < i && op.cr.spec.actions[j].name == name
        invariant op.Now() == old(op.Now())
      {
        if op.cr.spec.actions[i].name == name { found := true; }
      }
      if !found {
        assert name in kept;
        kept := kept - {name};
        requeue := true;
        assert name in before && name !in kept;
      }
      names := names - {name};
    }
    assert kept == LiveStatuses(op.cr);
    if !requeue { return OK; }
    op.cr := op.cr.(status := op.cr.status.(actions := kept));
    flow := UpdateCrStatus(op);
    if flow.Killed? { return Killed; }
    return Return(Requeue(0), None);
  }

  /** removeAction writes past the end of the shorter list, a panic, when the index is not in the list. */
  function ActionRemoved(list: seq<Action>, index: nat): Option<seq<Action>>
  {
    if index < |list| then Some(list[..index] + list[index + 1..]) else None
  }

  function TakeAction(s: Sys, action: Action): RanAction
  {
    if action.name == "collect-logs" then Collect(s, action.name) else RanAction(Ran(s, Fail(UnknownAction)), false)
  }

  /** Take the finished action off the list; a failed write is only logged. */
  function Retire(s: Sys, index: nat): Ran
  {
    var shorter := ActionRemoved(s.cr.spec.actions, index);
    if shorter.None? then Ran(s, Killed)
    else
      var pushed := PushCr(s.(cr := s.cr.(spec := s.cr.spec.(actions := shorter.value))));
      Ran(pushed.s, if pushed.flow.Killed? then Killed else OK)
  }

  /** An action that is not done ends the pass; if it waits, its progress is stored. */
  function Interrupted(r: Ran): Ran
  {
    if r.flow.Return? && r.flow.result.requeue then
      var pushed := PushStatus(r.s);
      Ran(pushed.s, if pushed.flow.Killed? then Killed else r.flow)
    else r
  }

  function TurnOf(s: Sys, action: Action, index: nat): Ran
  {
    var a := TakeAction(s, action);
    if a.r.flow.Killed? then a.r
    else
      var kept := if a.remove then Retire(a.r.s, index) else Ran(a.r.s, OK);
      if kept.flow.Killed? then kept
      else if a.r.flow != OK then Interrupted(Ran(kept.s, a.r.flow))
      else Ran(kept.s, OK)
  }

  /** The pending list is the one the pass started with; so are its indexes. */
  function HandleActions(s: Sys, pending: seq<Action>, index: nat): Ran
    decreases |pending|
  {
    if pending == [] then Ran(s, OK)
    else
      var one := TurnOf(s, pending[0], index);
      if one.flow != OK then one else HandleActions(one.s, pending[1..], index + 1)
  }

  method RemoveAction(op: Operator, indexToRemove: nat) returns (panics: bool)
    modifies op`cr
    ensures var shorter := ActionRemoved(old(op.cr.spec.actions), indexToRemove);
      && panics == shorter.None?
      && op.cr == if panics then old(op.cr) else old(op.cr).(spec := old(op.cr).spec.(actions := shorter.value))
  {
    var list := op.cr.spec.actions;
    if indexToRemove >= |list| { return true; }
    var newList: seq<Action> := [];
    for i := 0 to |list|
      invariant newList == if i <= indexToRemove then list[..i] else list[..indexToRemove] + list[indexToRemove + 1..i]
    {
      if i != indexToRemove { newList := newList + [list[i]]; }
    }
    op.cr := op.cr.(spec := op.cr.spec.(actions := newList));
    return false;
  }

  method HandleAction(op: Operator, action: Action) returns (remove: bool, flow: Flow)
    modifies op
    ensures RanAction(Ran(op.Now(), flow), remove) == TakeAction(old(op.Now()), action)
  {
    if action.name == "collect-logs" {
      remove, flow := HandleCollectLogs(op, action.name);
    } else {
      return false, Fail(UnknownAction);
    }
  }

  method HandlePendingAction(op: Operator, action: Action, index: nat) returns (flow: Flow)
    modifies op
    ensures Ran(op.Now(), flow) == TurnOf(old(op.Now()), action, index)
  {
    var remove;
    remove, flow := HandleAction(op, action);
    if flow.Killed? { return; }
    if remove {
      var panics := RemoveAction(op, index);
      if panics { return Killed; }
      var updated := UpdateCustomResource(op);
      if updated.Killed? { return Killed; }
    }
    if flow.result.requeue || flow.err.Some? {
      if flow.result.requeue {
        var pushed := UpdateCrStatus(op);
        if pushed.Killed? { return Killed; }
      }
    }
  }

  method HandlePendingActions(op: Operator) returns (flow: Flow)
    modifies op
    ensures Ran(op.Now(), flow) == HandleActions(old(op.Now()), old(op.cr.spec.actions), 0)
  {
    var pending := op.cr.spec.actions;
    var i := 0;
    while i < |pending|
      invariant i <= |pending|
      invariant HandleActions(op.Now(), pending[i..], i) == HandleActions(old(op.Now()), pending, 0)
    {
      assert pending[i..][0] == pending[i] && pending[i..][1..] == pending[i + 1..];
      flow := HandlePendingAction(op, pending[i], i);
      if flow != OK { return; }
      i := i + 1;
    }
    return OK;
  }

  // ---- the cycle -------------------------------------------------------------------------------

  function EnsureServiceAccount(s: Sys): Ran
  {
    var account := EnsureObject(s, None, SERVICE_ACCOUNT);
    if account.flow != OK then account
    else
      var role := EnsureObject(account.s, None, CLUSTER_ROLE);
      if role.flow != OK then role else EnsureObject(role.s, None, ROLE_BINDING)
  }

  method MakeSureServiceAccountExists(op: Operator) returns (flow: Flow)
    modifies op
    ensures Ran(op.Now(), flow) == EnsureServiceAccount(old(op.Now()))
  {
    flow := MakeSureObjectExists(op, None, SERVICE_ACCOUNT);
    if flow != OK { return; }
    flow := MakeSureObjectExists(op, None, CLUSTER_ROLE);
    if flow != OK { return; }
    flow := MakeSureObjectExists(op, None, ROLE_BINDING);
  }

  predicate ValidSpec(spec: Spec)
  {
    !(spec.mongoExternal && spec.mongoAddress == "")
  }

  /** Stale statuses, then the pending actions. */
  function Actions(s: Sys): Ran
  {
    var swept := DropStale(s);
    if swept.flow.Killed? then swept
    else if swept.flow.result.requeue then Succeed(swept.s, swept.flow.result)
    else
      var acted := HandleActions(swept.s, swept.s.cr.spec.actions, 0);
      if acted.flow.Killed? then acted
      else if acted.flow.err.Some? then Complain(acted.s, acted.flow.err.value, acted.flow.result)
      else if acted.flow.result.requeue then Succeed(acted.s, acted.flow.result)
      else Succeed(acted.s, DO_NOT_REQUEUE)
  }

  /** The components and what follows; an error without a requeue is dropped here. */
  function Converge(s: Sys): Ran
  {
    var all := ReconcileAll(s);
    if all.flow.Killed? then all
    else if all.flow.result.requeue then
      if all.flow.err.Some? then
        var told := Complain(all.s, all.flow.err.value, all.flow.result);
        Ran(told.s, if told.flow.Killed? then Killed else Return(all.flow.result, None))
      else Ran(all.s, all.flow)
    else Actions(all.s)
  }

  function AfterFinalizer(fin: Ran): Ran
  {
    if fin.flow.Killed? then fin
    else if fin.flow.err.Some? then Complain(fin.s, fin.flow.err.value, Requeue(0))
    else if fin.flow.result.requeue then Succeed(fin.s, fin.flow.result)
    else Converge(fin.s)
  }

  /** The cycle from the custom resource copy on. */
  function Handle(s: Sys): Ran
  {
    if !ValidSpec(s.cr.spec) then Complain(s, Invalid, Requeue(0))
    else
      var account := EnsureServiceAccount(s);
      if account.flow.Killed? then account
      else if account.flow.err.Some? then Complain(account.s, account.flow.err.value, Requeue(0))
      else AfterFinalizer(HandleFinalizer(account.s))
  }

  /** A custom resource that is gone needs nothing; one that cannot be read is retried in a second. */
  function Reconcile(s: Sys): Ran
  {
    var got := Call(s, GetCr);
    match got.reply
    case Silence => Ran(got.s, Killed)
    case Fails(NotFound) => Ran(got.s, OK)
    case Fails(_) => Ran(got.s, Return(Requeue(1), None))
    case CrIs(cr) => Handle(got.s.(cr := cr))
    case _ => Ran(got.s, OK)
  }

  method RunActions(op: Operator) returns (flow: Flow)
    modifies op
    ensures Ran(op.Now(), flow) == Actions(old(op.Now()))
  {
    flow := RemoveFinishedActionStatuses(op);
    if flow.Killed? { return; }
    if flow.result.requeue {
      flow := ManageSuccess(op, flow.result);
      return;
    }
    if |op.cr.spec.actions| > 0 {
      flow := HandlePendingActions(op);
      if flow.Killed? { return; }
      if flow.err.Some? {
        flow := ManageError(op, flow.err.value, flow.result);
        return;
      }
      if flow.result.requeue {
        flow := ManageSuccess(op, flow.result);
        return;
      }
    }
    flow := ManageSuccess(op, DO_NOT_REQUEUE);
  }

  method ConvergeComponents(op: Operator) returns (flow: Flow)
    modifies op
    ensures Ran(op.Now(), flow) == Converge(old(op.Now()))
  {
    flow := ReconcileAllComponents(op);
    if flow.Killed? { return; }
    if flow.result.requeue {
      var result := flow.result;
      if flow.err.Some? {
        flow := ManageError(op, flow.err.value, result);
        if flow.Killed? { return; }
      }
      return Return(result, None);
    }
    flow := RunActions(op);
  }

  method HandleCustomResource(op: Operator) returns (flow: Flow)
    modifies op
    ensures Ran(op.Now(), flow) == Handle(old(op.Now()))
  {
    if op.cr.spec.mongoExternal && op.cr.spec.mongoAddress == "" {
      flow := ManageError(op, Invalid, Requeue(0));
      return;
    }
    flow := MakeSureServiceAccountExists(op);
    if flow.Killed? { return; }
    if flow.err.Some? {
      flow := ManageError(op, flow.err.value, Requeue(0));
      return;
    }
    flow := HandleClusterFinalizer(op);
    if flow.Killed? { return; }
    if flow.err.Some? {
      flow := ManageError(op, flow.err.value, Requeue(0));
      return;
    }
    if flow.result.requeue {
      flow := ManageSuccess(op, flow.result);
      return;
    }
    flow := ConvergeComponents(op);
  }

  method ReconcileCycle(op: Operator) returns (flow: Flow)
    modifies op
    ensures Ran(op.Now(), flow) == Reconcile(old(op.Now()))
  {
    var got := op.Call(GetCr);
    if got.Silence? { return Killed; }
    if got.Fails? { return if got.error.NotFound? then OK else Return(Requeue(1), None); }
    if !got.CrIs? { return OK; }
    op.cr := got.cr;
    flow := HandleCustomResource(op);
  }
}
