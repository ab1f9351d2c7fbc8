/** The management component: MongoDB objects, the settings document, the init-DB job, management objects. */
module Management {
  import opened Basics
  import opened Kube
  import opened OperatorState
  import opened Objects
  import opened Jobs

  const INIT_DB_JOB := "mgmt-init-db"

  function WantedSettings(spec: Spec): DbSettings
  {
    DbSettings(!spec.disableAutoFormatDrives, !spec.disableAutoEvictMissingDrives)
  }

  /** Write the wanted settings and restart management; a failed restart is ignored. */
  function StoreSettings(s: Sys): Ran
  {
    var written := Call(s, UpdateSettings(WantedSettings(s.cr.spec)));
    if written.reply.Silence? then Ran(written.s, Killed)
    else if written.reply.Fails? then Ran(written.s, Fail(Unexpected))
    else
      var restarted := Restart(written.s, MGMT_STATEFUL_SET, RESTART_ATTEMPTS);
      Ran(restarted.s, if restarted.flow.Killed? then Killed else OK)
  }

  function SyncSettings(s: Sys, found: DbSettings): Ran
  {
    var swept := RemoveJob(s, INIT_DB_JOB);
    if swept.flow.Killed? then swept
    else if found != WantedSettings(swept.s.cr.spec) then StoreSettings(swept.s)
    else Ran(swept.s, OK)
  }

  function HandleDb(s: Sys): Ran
  {
    var found := Call(s, FindSettings);
    match found.reply
    case Silence => Ran(found.s, Killed)
    case Fails(e) => Ran(found.s, Fail(e))
    case SettingsAre(settings) => SyncSettings(found.s, settings)
    case _ => Ran(found.s, OK)
  }

  method StoreWantedSettings(op: Operator) returns (flow: Flow)
    modifies op
    ensures Ran(op.Now(), flow) == StoreSettings(old(op.Now()))
  {
    var spec := op.cr.spec;
    var written := op.Call(UpdateSettings(DbSettings(!spec.disableAutoFormatDrives, !spec.disableAutoEvictMissingDrives)));
    if written.Silence? { return Killed; }
    if written.Fails? { return Fail(Unexpected); }
    var restarted := RestartStatefulSet(op, MGMT_STATEFUL_SET);
    if restarted.Killed? { return Killed; }
    return OK;
  }

  method HandleDBManipulations(op: Operator) returns (flow: Flow)
    modifies op
    ensures Ran(op.Now(), flow) == HandleDb(old(op.Now()))
  {
    var found := op.Call(FindSettings);
    if found.Silence? { return Killed; }
    if found.Fails? { return Fail(found.error); }
    if !found.SettingsAre? { return OK; }
    var swept := DeleteJobAndPods(op, INIT_DB_JOB);
    if swept.Killed? { return Killed; }
    var spec := op.cr.spec;
    if spec.disableAutoFormatDrives != !found.settings.autoFormatDrive
       || spec.disableAutoEvictMissingDrives != !found.settings.autoEvictMissingDrive {
      flow := StoreWantedSettings(op);
      return;
    }
    assert found.settings == WantedSettings(spec);
    return OK;
  }

  /** What a database error turns into: a missing document starts the init job. */
  function AfterDb(handled: Ran): Ran
  {
    if handled.flow.Killed? then handled
    else if handled.flow == Fail(NoDocuments) then
      var started := StartJob(handled.s, INIT_DB_JOB);
      Ran(started.s, if started.flow.Killed? then Killed else Return(Requeue(3), started.flow.err))
    else if handled.flow == Fail(Unreachable) then Ran(handled.s, Return(Requeue(5), None))
    else if handled.flow.err.Some? then Ran(handled.s, Return(Requeue(1), handled.flow.err))
    else ReconcileDir(handled.s, handled.s.w.res.mgmtComponent, handled.s.w.res.mgmt, false)
  }

  function DeployMongo(spec: Spec): bool
  {
    !spec.mgmtDisabled && !spec.mongoExternal
  }

  function ReconcileManagement(s: Sys): Ran
  {
    var res := s.w.res;
    var mongo := ReconcileDir(s, res.mgmtComponent, res.mongo, !DeployMongo(s.cr.spec));
    if mongo.flow.Killed? then mongo
    else if mongo.flow.err.Some? then Ran(mongo.s, Return(Requeue(1), mongo.flow.err))
    else if s.cr.spec.mgmtDisabled then ReconcileDir(mongo.s, res.mgmtComponent, res.mgmt, true)
    else AfterDb(HandleDb(mongo.s))
  }

  method ReconcileMgmt(op: Operator) returns (flow: Flow)
    modifies op
    ensures Ran(op.Now(), flow) == ReconcileManagement(old(op.Now()))
  {
    var spec := op.cr.spec;
    var res := op.cluster.res;
    if !spec.mgmtDisabled && !spec.mongoExternal {
      flow := ReconcileYamlObjectsFromDir(op, res.mgmtComponent, res.mongo, false);
    } else {
      flow := ReconcileYamlObjectsFromDir(op, res.mgmtComponent, res.mongo, true);
    }
    if flow.Killed? { return; }
    if flow.err.Some? { return Return(Requeue(1), flow.err); }
    if spec.mgmtDisabled {
      flow := ReconcileYamlObjectsFromDir(op, res.mgmtComponent, res.mgmt, true);
      return;
    }
    flow := HandleDBManipulations(op);
    if flow.Killed? { return; }
    if flow == Fail(NoDocuments) {
      flow := RunJob(op, INIT_DB_JOB);
      if flow.Killed? { return; }
      return Return(Requeue(3), flow.err);
    }
    if flow == Fail(Unreachable) { return Return(Requeue(5), None); }
    if flow.err.Some? { return Return(Requeue(1), flow.err); }
    flow := ReconcileYamlObjectsFromDir(op, op.cluster.res.mgmtComponent, op.cluster.res.mgmt, false);
  }

  // ---- the external addresses of the GUI service -----------------------------------------------

  /** Whether two lists have the same elements, in whatever order and however often each. */
  method IsStringArraysEqualElements(a: seq<string>, b: seq<string>) returns (equal: bool)
    ensures equal <==> (set x | x in a) == (set x | x in b)
  {
    var dict: map<string, bool> := map[];
    for i := 0 to |a|
      invariant dict.Keys == (set x | x in a[..i])
      invariant forall x :: x in dict ==> !dict[x]
    {
      dict := dict[a[i] := false];
    }
    assert a[..|a|] == a;
    for i := 0 to |b|
      invariant dict.Keys == (set x | x in a)
      invariant forall x :: x in dict ==> (dict[x] <==> x in b[..i])
      invariant forall x :: x in b[..i] ==> x in dict
    {
      if b[i] !in dict {
        assert b[i] in (set x | x in b);
        return false;
      }
      dict := dict[b[i] := true];
    }
    assert b[..|b|] == b;
    var keys := dict.Keys;
    while keys != {}
      invariant keys <= dict.Keys
      invariant forall x :: x in dict && x !in keys ==> dict[x]
      decreases |keys|
    {
      var key :| key in keys;
      if !dict[key] {
        assert key in (set x | x in a) && key !in b;
        return false;
      }
      keys := keys - {key};
    }
    return true;
  }
}
