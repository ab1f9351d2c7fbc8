/** Creating, updating and removing the objects that directories of manifests describe. */
module Objects {
  import opened Basics
  import opened Kube
  import opened OperatorState
  import opened CoreConfigMap

  // ---- one object ------------------------------------------------------------------------------

  /** A delete that finds the object gone between the lookup and the delete reports that as an error. */
  function RemoveObject(s: Sys, key: Key): Ran
  {
    var found := Call(s, GetObject(key));
    match found.reply
    case Silence => Ran(found.s, Killed)
    case Fails(NotFound) => Ran(found.s, OK)
    case Fails(NoKindMatch) => Ran(found.s, if key.kind == "SecurityContextConstraints" then OK else Fail(NoKindMatch))
    case Fails(e) => Ran(found.s, Fail(e))
    case _ =>
      var gone := Call(found.s, DeleteObject(key));
      match gone.reply
      case Silence => Ran(gone.s, Killed)
      case Fails(e) => Ran(gone.s, Fail(e))
      case _ => Ran(gone.s, OK)
  }

  method MakeSureObjectRemoved(op: Operator, key: Key) returns (flow: Flow)
    modifies op
    ensures Ran(op.Now(), flow) == RemoveObject(old(op.Now()), key)
  {
    var found := op.Call(GetObject(key));
    if found.Silence? { return Killed; }
    if found == Fails(NotFound) { return OK; }
    if found.Fails? {
      if found.error.NoKindMatch? && key.kind == "SecurityContextConstraints" { return OK; }
      return Fail(found.error);
    }
    var gone := op.Call(DeleteObject(key));
    if gone.Silence? { return Killed; }
    if gone.Fails? { return Fail(gone.error); }
    return OK;
  }

  /** The manifest as the component fills it in, or None if the component refuses. */
  function Initialised(cr: Cr, component: Option<Component>, m: Manifest): Option<Manifest>
  {
    if component.None? then Some(m)
    else
      var fields := component.value.init(cr.spec, m);
      if fields.None? then None else Some(Manifest(m.key, fields.value))
  }

  function PlanFor(cr: Cr, component: Option<Component>, m: Manifest, found: Fields): Plan
  {
    if component.None? then Leave else component.value.plan(cr.spec, m, found)
  }

  const RESTART_ANNOTATION := "operator.nvmesh.excelero.com/restartedAt"
  const MGMT_STATEFUL_SET := Key("StatefulSet", "nvmesh-management")

  /** The steps of client-go's DefaultBackoff. */
  const RESTART_ATTEMPTS: nat := 4

  function TimeText(now: nat): string
  {
    Digits(now)
  }

  function Annotated(fields: Fields, text: string): Fields
  {
    fields.(entries := fields.entries[RESTART_ANNOTATION := text])
  }

  /** Read the latest version, set the restart annotation, write; on a conflict start over. */
  function Restart(s: Sys, key: Key, attempts: nat): Ran
    decreases attempts
  {
    var found := Call(s, GetObject(key));
    if found.reply.Silence? then Ran(found.s, Killed)
    else if !found.reply.ObjectIs? then Ran(found.s, Fail(if found.reply.Fails? then found.reply.error else Unexpected))
    else
      var fields := Annotated(found.reply.stored.fields, TimeText(found.s.w.now));
      var written := Call(found.s, UpdateObject(Manifest(key, fields), Some(found.reply.stored.version)));
      if written.reply.Silence? then Ran(written.s, Killed)
      else if written.reply == Fails(Conflict) && attempts > 1 then Restart(written.s, key, attempts - 1)
      else Ran(written.s, if written.reply.Fails? then Fail(written.reply.error) else OK)
  }

  method RestartStatefulSet(op: Operator, key: Key) returns (flow: Flow)
    modifies op
    ensures Ran(op.Now(), flow) == Restart(old(op.Now()), key, RESTART_ATTEMPTS)
  {
    var attempts := RESTART_ATTEMPTS;
    while true
      invariant attempts >= 1
      invariant Restart(op.Now(), key, attempts) == Restart(old(op.Now()), key, RESTART_ATTEMPTS)
      decreases attempts
    {
      var found := op.Call(GetObject(key));
      if found.Silence? { return Killed; }
      if !found.ObjectIs? { return Fail(if found.Fails? then found.error else Unexpected); }
      var fields := found.stored.fields;
      fields := fields.(entries := fields.entries[RESTART_ANNOTATION := TimeText(op.cluster.now)]);
      var written := op.Call(UpdateObject(Manifest(key, fields), Some(found.stored.version)));
      if written.Silence? { return Killed; }
      if written != Fails(Conflict) || attempts == 1 {
        return if written.Fails? then Fail(written.error) else OK;
      }
      attempts := attempts - 1;
    }
  }

  /** The answer to a plain write: an error is an error. */
  function Written(a: Ans): Ran
  {
    Ran(a.s, if a.reply.Silence? then Killed else if a.reply.Fails? then Fail(a.reply.error) else OK)
  }

  /** Losing a creation race is success. */
  function Created(a: Ans): Ran
  {
    Ran(a.s, if a.reply.Silence? then Killed
             else if a.reply.Fails? && !a.reply.error.AlreadyExists? then Fail(a.reply.error) else OK)
  }

  /** The management ConfigMap is written on the side and its errors are swallowed. */
  function WriteThenRestart(s: Sys, m: Manifest): Ran
  {
    var written := Written(Call(s, UpdateObject(m, None)));
    if written.flow != OK then Ran(written.s, if written.flow.Killed? then Killed else OK)
    else
      var restarted := Restart(written.s, MGMT_STATEFUL_SET, RESTART_ATTEMPTS);
      Ran(restarted.s, if restarted.flow.Killed? then Killed else OK)
  }

  function Apply(s: Sys, key: Key, plan: Plan): Ran
  {
    match plan
    case Leave => Ran(s, OK)
    case Write(fields) => Written(Call(s, UpdateObject(Manifest(key, fields), None)))
    case WriteAndRestart(fields) => WriteThenRestart(s, Manifest(key, fields))
  }

  function EnsureObject(s: Sys, component: Option<Component>, m: Manifest): Ran
  {
    var wanted := Initialised(s.cr, component, m);
    if wanted.None? then Ran(s, Fail(Rejected))
    else
      var found := Call(s, GetObject(m.key));
      match found.reply
      case Silence => Ran(found.s, Killed)
      case Fails(NotFound) => Created(Call(found.s, CreateObject(wanted.value)))
      case Fails(e) => Ran(found.s, Fail(e))
      case ObjectIs(stored) => Apply(found.s, m.key, PlanFor(s.cr, component, wanted.value, stored.fields))
      case _ => Ran(found.s, OK)
  }

  method ApplyPlan(op: Operator, key: Key, plan: Plan) returns (flow: Flow)
    modifies op
    ensures Ran(op.Now(), flow) == Apply(old(op.Now()), key, plan)
  {
    match plan
    case Leave => return OK;
    case Write(fields) =>
      var reply := op.Call(UpdateObject(Manifest(key, fields), None));
      if reply.Silence? { return Killed; }
      if reply.Fails? { return Fail(reply.error); }
      return OK;
    case WriteAndRestart(fields) =>
      var reply := op.Call(UpdateObject(Manifest(key, fields), None));
      if reply.Silence? { return Killed; }
      if reply.Fails? { return OK; }
      var restarted := RestartStatefulSet(op, MGMT_STATEFUL_SET);
      return if restarted.Killed? then Killed else OK;
  }

  method MakeSureObjectExists(op: Operator, component: Option<Component>, m: Manifest) returns (flow: Flow)
    modifies op
    ensures Ran(op.Now(), flow) == EnsureObject(old(op.Now()), component, m)
  {
    var wanted := Initialised(op.cr, component, m);
    if wanted.None? { return Fail(Rejected); }
    var found := op.Call(GetObject(m.key));
    if found.Silence? { return Killed; }
    if found == Fails(NotFound) {
      var reply := op.Call(CreateObject(wanted.value));
      if reply.Silence? { return Killed; }
      if reply.Fails? && !reply.error.AlreadyExists? { return Fail(reply.error); }
      return OK;
    }
    if found.Fails? { return Fail(found.error); }
    if found.ObjectIs? {
      flow := ApplyPlan(op, m.key, PlanFor(op.cr, component, wanted.value, found.stored.fields));
      return flow;
    }
    return OK;
  }

  // ---- files and directories -------------------------------------------------------------------

  function ReconcileObject(s: Sys, component: Option<Component>, m: Manifest, remove: bool): Ran
  {
    if remove then RemoveObject(s, m.key) else EnsureObject(s, component, m)
  }

  function FirstError(first: Option<Error>, flow: Flow): Option<Error>
  {
    if first.None? && flow.Return? then flow.err else first
  }

  /** Every object of a file gets its turn; the first error is what the file reports. */
  function ReconcileManifests(s: Sys, component: Component, ms: seq<Manifest>, remove: bool, first: Option<Error>): Ran
    decreases |ms|
  {
    if ms == [] then Ran(s, Return(DO_NOT_REQUEUE, first))
    else
      var one := ReconcileObject(s, Some(component), ms[0], remove);
      if one.flow.Killed? then one
      else ReconcileManifests(one.s, component, ms[1..], remove, FirstError(first, one.flow))
  }

  function ReconcileFile(s: Sys, component: Component, file: YamlFile, remove: bool): Ran
  {
    if file.Unreadable? then Ran(s, Fail(Unexpected))
    else ReconcileManifests(s, component, file.manifests, remove, None)
  }

  /** A failing file stops the directory. */
  function ReconcileDir(s: Sys, component: Component, files: seq<YamlFile>, remove: bool): Ran
    decreases |files|
  {
    if files == [] then Ran(s, OK)
    else
      var one := ReconcileFile(s, component, files[0], remove);
      if one.flow != OK then one else ReconcileDir(one.s, component, files[1..], remove)
  }

  method ReconcileYamlObjectsFromFile(op: Operator, component: Component, file: YamlFile, remove: bool) returns (flow: Flow)
    modifies op
    ensures Ran(op.Now(), flow) == ReconcileFile(old(op.Now()), component, file, remove)
  {
    if file.Unreadable? { return Fail(Unexpected); }
    var objects := file.manifests;
    var first: Option<Error> := None;
    var i := 0;
    while i < |objects|
      invariant i <= |objects|
      invariant ReconcileManifests(op.Now(), component, objects[i..], remove, first)
             == ReconcileManifests(old(op.Now()), component, objects, remove, None)
    {
      assert objects[i..][0] == objects[i] && objects[i..][1..] == objects[i + 1..];
      if remove {
        flow := MakeSureObjectRemoved(op, objects[i].key);
      } else {
        flow := MakeSureObjectExists(op, Some(component), objects[i]);
      }
      if flow.Killed? { return Killed; }
      if flow.err.Some? && first.None? { first := flow.err; }
      i := i + 1;
    }
    return Return(DO_NOT_REQUEUE, first);
  }

  method ReconcileYamlObjectsFromDir(op: Operator, component: Component, files: seq<YamlFile>, remove: bool) returns (flow: Flow)
    modifies op
    ensures Ran(op.Now(), flow) == ReconcileDir(old(op.Now()), component, files, remove)
  {
    var i := 0;
    while i < |files|
      invariant i <= |files|
      invariant ReconcileDir(op.Now(), component, files[i..], remove)
             == ReconcileDir(old(op.Now()), component, files, remove)
    {
      assert files[i..][0] == files[i] && files[i..][1..] == files[i + 1..];
      flow := ReconcileYamlObjectsFromFile(op, component, files[i], remove);
      if flow != OK { return flow; }
      i := i + 1;
    }
    return OK;
  }
}
