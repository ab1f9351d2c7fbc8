/** Bringing up management: no management object before the settings document, no init-DB job with it. */
module Bootstrap {
  import opened Basics
  import opened Kube
  import opened Objects
  import opened Jobs
  import opened StatusUpdater
  import opened Management
  import opened Finalizer
  import opened Reconciler
  import opened Safety
  import opened StageSafety
  import opened Protocol
  import opened CycleSafety
  import opened Runs

  /** The request stores what a manifest asks for: it creates the object, or writes it over what is there. The versioned
      write of a restart does not. */
  predicate Puts(q: Request)
  {
    q.CreateObject? || (q.UpdateObject? && q.version.None?)
  }

  /** An object only the management directory lists. */
  predicate MgmtOnly(res: Resources, key: Key)
  {
    Lists(res.mgmt, key) && !Lists(res.core, key) && !Lists(res.csi, key) && !Lists(res.mongo, key)
  }

  predicate Asked(log: seq<Entry>, from: nat, i: nat, reply: Reply)
    requires i <= |log|
  {
    exists j :: from <= j < i && log[j].request.FindSettings? && log[j].reply == reply
  }

  predicate SettingsFound(log: seq<Entry>, from: nat, i: nat)
    requires i <= |log|
  {
    exists j :: from <= j < i && log[j].request.FindSettings? && log[j].reply.SettingsAre?
  }

  /** From `from` on, management objects are created and written only after the settings document was found, and the
      init-DB job only after it was found missing. */
  ghost predicate Proper(res: Resources, log: seq<Entry>, from: nat)
  {
    forall i :: from <= i < |log| ==>
      && (Puts(log[i].request) && MgmtOnly(res, log[i].request.manifest.key) ==> SettingsFound(log, from, i))
      && (log[i].request == CreateJob(INIT_DB_JOB) ==> Asked(log, from, i, Fails(NoDocuments)))
  }

  // ---- what each piece asks for ----------------------------------------------------------------

  predicate DbLeftAlone(ticks: seq<Tick>)
  {
    forall i, j :: 0 <= i < |ticks| && 0 <= j < |ticks[i].steps| ==> !ticks[i].steps[j].DbBecomes?
  }

  /** From s to t objects of these files at most were created or written, no job, and the settings were not written. */
  ghost predicate Creating(s: Sys, t: Sys, files: seq<YamlFile>)
  {
    && s.w.log <= t.w.log && t.w.res == s.w.res && t.cr == s.cr
    && (DbLeftAlone(s.ticks) ==> DbLeftAlone(t.ticks) && t.w.db == s.w.db)
    && (forall i :: |s.w.log| <= i < |t.w.log| ==> !t.w.log[i].request.CreateJob?)
    && (forall i :: |s.w.log| <= i < |t.w.log| && Puts(t.w.log[i].request) ==>
          Lists(files, t.w.log[i].request.manifest.key))
  }

  lemma {:induction false} OthersAndDb(w: World, steps: seq<EnvStep>)
    ensures var v := EnvRun(w, steps);
      && v.log == w.log && v.res == w.res
      && ((forall j :: 0 <= j < |steps| ==> !steps[j].DbBecomes?) ==> v.db == w.db)
    decreases |steps|
  {
    if steps != [] {
      OthersAndDb(EnvStepped(w, steps[0]), steps[1..]);
      if forall j :: 0 <= j < |steps| ==> !steps[j].DbBecomes? {
        assert !steps[0].DbBecomes?;
        forall j | 0 <= j < |steps[1..]| ensures !steps[1..][j].DbBecomes? { assert steps[1..][j] == steps[j + 1]; }
      }
    }
  }

  /** One request: the log, the settings, and what the answer says about them. */
  lemma CallAndDb(s: Sys, q: Request)
    ensures var a := Call(s, q); var n := |s.w.log|;
      && s.w.log <= a.s.w.log && a.s.w.res == s.w.res && a.s.cr == s.cr
      && (forall i :: n <= i < |a.s.w.log| ==> a.s.w.log[i].request == q && a.s.w.log[i].reply == a.reply)
      && (!a.reply.Silence? ==> |a.s.w.log| == n + 1)
      && (DbLeftAlone(s.ticks) ==> DbLeftAlone(a.s.ticks) && (!q.UpdateSettings? ==> a.s.w.db == s.w.db))
  {
    hide EnvRun, Answer;
    if s.ticks != [] {
      OthersAndDb(s.w, s.ticks[0].steps);
      if DbLeftAlone(s.ticks) {
        forall j | 0 <= j < |s.ticks[0].steps| ensures !s.ticks[0].steps[j].DbBecomes? {}
      }
    }
  }

  lemma SettingsReplies(s: Sys, q: Request)
    requires q.FindSettings? || q.UpdateSettings?
    ensures var a := Call(s, q);
      && (q.FindSettings? ==> a.reply.Silence? || a.reply.Fails? || a.reply == SettingsAre(a.reply.settings))
      && (q.FindSettings? && a.reply.SettingsAre? ==> a.s.w.db == Some(a.reply.settings))
      && (q.UpdateSettings? && !a.reply.Silence? && !a.reply.Fails? ==> a.s.w.db == Some(q.settings))
  {
  }

  lemma CallCreates(s: Sys, q: Request, files: seq<YamlFile>)
    requires !q.UpdateSettings? && !q.CreateJob? && (Puts(q) ==> Lists(files, q.manifest.key))
    ensures Creating(s, Call(s, q).s, files)
  {
    hide Call;
    CallAndDb(s, q);
  }

  lemma {:induction false} RestartCreates(s: Sys, key: Key, attempts: nat, files: seq<YamlFile>)
    ensures Creating(s, Restart(s, key, attempts).s, files)
    decreases attempts
  {
    hide Call, Lists;
    var found := Call(s, GetObject(key));
    CallCreates(s, GetObject(key), files);
    if found.reply.ObjectIs? {
      var fields := Annotated(found.reply.stored.fields, TimeText(found.s.w.now));
      var q := UpdateObject(Manifest(key, fields), Some(found.reply.stored.version));
      var written := Call(found.s, q);
      CallCreates(found.s, q, files);
      if written.reply == Fails(Conflict) && attempts > 1 {
        RestartCreates(written.s, key, attempts - 1, files);
      }
    }
  }

  lemma ApplyCreates(s: Sys, key: Key, plan: Plan, files: seq<YamlFile>)
    requires Lists(files, key)
    ensures Creating(s, Apply(s, key, plan).s, files)
  {
    hide Call, Restart, Lists;
    match plan
    case Leave =>
    case Write(fields) => CallCreates(s, UpdateObject(Manifest(key, fields), None), files);
    case WriteAndRestart(fields) =>
      var q := UpdateObject(Manifest(key, fields), None);
      CallCreates(s, q, files);
      var t := Call(s, q).s;
      RestartCreates(t, MGMT_STATEFUL_SET, RESTART_ATTEMPTS, files);
  }

  lemma EnsureCreates(s: Sys, component: Option<Component>, m: Manifest, files: seq<YamlFile>)
    requires Lists(files, m.key)
    ensures Creating(s, EnsureObject(s, component, m).s, files)
  {
    hide Call, Apply, Lists;
    var wanted := Initialised(s.cr, component, m);
    if wanted.Some? {
      var found := Call(s, GetObject(m.key));
      CallCreates(s, GetObject(m.key), files);
      if found.reply == Fails(NotFound) {
        CallCreates(found.s, CreateObject(wanted.value), files);
      } else if found.reply.ObjectIs? {
        var plan := PlanFor(s.cr, component, wanted.value, found.reply.stored.fields);
        ApplyCreates(found.s, m.key, plan, files);
      }
    }
  }

  lemma RemovalCreates(s: Sys, key: Key, files: seq<YamlFile>)
    ensures Creating(s, RemoveObject(s, key).s, files)
  {
    hide Call, Lists;
    var found := Call(s, GetObject(key)).s;
    CallCreates(s, GetObject(key), files);
    CallCreates(found, DeleteObject(key), files);
  }

  ghost predicate AllListed(ms: seq<Manifest>, files: seq<YamlFile>)
  {
    forall m :: m in ms ==> Lists(files, m.key)
  }

  lemma {:induction false} ManifestsCreate(s: Sys, component: Component, ms: seq<Manifest>, remove: bool, first: Option<Error>,
                                           files: seq<YamlFile>)
    requires remove || AllListed(ms, files)
    ensures Creating(s, ReconcileManifests(s, component, ms, remove, first).s, files)
    decreases |ms|
  {
    hide EnsureObject, RemoveObject, Lists;
    if ms != [] {
      var one := ReconcileObject(s, Some(component), ms[0], remove);
      if remove { RemovalCreates(s, ms[0].key, files); } else { EnsureCreates(s, Some(component), ms[0], files); }
      if !one.flow.Killed? {
        var error := FirstError(first, one.flow);
        ManifestsCreate(one.s, component, ms[1..], remove, error, files);
      }
    }
  }

  lemma {:induction false} DirCreates(s: Sys, component: Component, files: seq<YamlFile>, remove: bool)
    ensures Creating(s, ReconcileDir(s, component, files, remove).s, files)
    decreases |files|
  {
    hide ReconcileManifests;
    if files != [] {
      var one := ReconcileFile(s, component, files[0], remove);
      if files[0].Readable? { ManifestsCreate(s, component, files[0].manifests, remove, None, files); }
      if one.flow == OK {
        var r := ReconcileDir(one.s, component, files[1..], remove);
        DirCreates(one.s, component, files[1..], remove);
      }
    }
  }

  lemma {:induction false} DirRemovalCreates(s: Sys, component: Component, files: seq<YamlFile>)
    ensures Creating(s, ReconcileDir(s, component, files, true).s, [])
    decreases |files|
  {
    hide ReconcileManifests, Lists;
    if files != [] {
      var one := ReconcileFile(s, component, files[0], true);
      if files[0].Readable? { ManifestsCreate(s, component, files[0].manifests, true, None, []); }
      if one.flow == OK {
        DirRemovalCreates(one.s, component, files[1..]);
      }
    }
  }

  lemma {:induction false} PodRemovalCreates(s: Sys, pods: seq<Pod>)
    ensures Creating(s, DeletePods(s, pods).s, [])
    decreases |pods|
  {
    hide Call, Lists;
    if pods != [] {
      var one := Call(s, DeletePod(pods[0].name)).s;
      CallCreates(s, DeletePod(pods[0].name), []);
      PodRemovalCreates(one, pods[1..]);
    }
  }

  lemma JobRemovalCreates(s: Sys, job: string)
    ensures Creating(s, RemoveJob(s, job).s, [])
  {
    hide Call, Lists;
    var gone := Call(s, DeleteJob(job)).s;
    CallCreates(s, DeleteJob(job), []);
    var listed := Call(gone, ListJobPods(job));
    CallCreates(gone, ListJobPods(job), []);
    if listed.reply.PodsAre? {
      PodRemovalCreates(listed.s, listed.reply.pods);
    }
  }

  // ---- management ------------------------------------------------------------------------------

  /** Neither an object nor a job was asked for. */
  ghost predicate CreatesNothing(s: Sys, t: Sys)
  {
    && s.w.log <= t.w.log && t.w.res == s.w.res && t.cr == s.cr
    && (DbLeftAlone(s.ticks) ==> DbLeftAlone(t.ticks))
    && forall i :: |s.w.log| <= i < |t.w.log| ==> !t.w.log[i].request.CreateJob? && !Puts(t.w.log[i].request)
  }

  lemma EmptyCreation(s: Sys, t: Sys)
    requires Creating(s, t, [])
    ensures CreatesNothing(s, t)
  {
  }

  /** The settings document has each drive flag as the negation of what the spec disables. */
  predicate FlagsFollow(w: World, spec: Spec)
  {
    && w.db.Some?
    && w.db.value.autoFormatDrive == !spec.disableAutoFormatDrives
    && w.db.value.autoEvictMissingDrive == !spec.disableAutoEvictMissingDrives
  }

  lemma SettingsAreStored(s: Sys)
    ensures var r := StoreSettings(s);
      && CreatesNothing(s, r.s)
      && (r.flow == OK && DbLeftAlone(s.ticks) ==> FlagsFollow(r.s.w, s.cr.spec))
      && r.flow != Fail(NoDocuments) && (r.flow.Return? && r.flow != OK ==> r.flow.err.Some?)
  {
    hide Call, Restart;
    var q := UpdateSettings(WantedSettings(s.cr.spec));
    var written := Call(s, q);
    CallAndDb(s, q);
    SettingsReplies(s, q);
    var restarted := Restart(written.s, MGMT_STATEFUL_SET, RESTART_ATTEMPTS).s;
    RestartCreates(written.s, MGMT_STATEFUL_SET, RESTART_ATTEMPTS, []);
    EmptyCreation(written.s, restarted);
  }

  /** Looking at the database creates nothing; success means the document was found and now holds what the
      spec wants; the missing-document error means just that. */
  lemma DbIsHandled(s: Sys)
    ensures var r := HandleDb(s); var log := r.s.w.log; var n := |s.w.log|;
      && CreatesNothing(s, r.s)
      && (r.flow == OK ==> SettingsFound(log, n, |log|))
      && (r.flow == OK && DbLeftAlone(s.ticks) ==> FlagsFollow(r.s.w, s.cr.spec))
      && (r.flow == Fail(NoDocuments) ==> Asked(log, n, |log|, Fails(NoDocuments)))
      && (r.flow.Return? && r.flow != OK ==> r.flow.err.Some?)
  {
    hide Call, RemoveJob, StoreSettings;
    var found := Call(s, FindSettings);
    CallAndDb(s, FindSettings);
    SettingsReplies(s, FindSettings);
    if !found.reply.Silence? {
      assert found.s.w.log[|s.w.log|].request == FindSettings && found.s.w.log[|s.w.log|].reply == found.reply;
    }
    if found.reply.SettingsAre? {
      var swept := RemoveJob(found.s, INIT_DB_JOB);
      JobRemovalCreates(found.s, INIT_DB_JOB);
      EmptyCreation(found.s, swept.s);
      SettingsAreStored(swept.s);
      var r := HandleDb(s);
      assert r.s.w.log[|s.w.log|] == found.s.w.log[|s.w.log|];
    }
  }

  /** What the database says decides the rest of the pass: a missing document starts the init job and asks for a cycle in
      three seconds, an unreachable server one in five without an error, any other error one in a second. */
  lemma DatabaseDecides(s: Sys)
    ensures var found := Call(s, FindSettings); var r := AfterDb(HandleDb(s));
      && (found.reply.Silence? ==> r == Ran(found.s, Killed))
      && (found.reply == Fails(NoDocuments) ==>
            var asked := Call(found.s, CreateJob("mgmt-init-db"));
            && r.s == asked.s
            && r.flow == if asked.reply.Silence? then Killed
                         else if asked.reply.Fails? && asked.reply.error != AlreadyExists
                           then Return(Result(true, 3), Some(asked.reply.error))
                         else Return(Result(true, 3), None))
      && (found.reply == Fails(Unreachable) ==> r == Ran(found.s, Return(Result(true, 5), None)))
      && (found.reply.Fails? && found.reply.error != NoDocuments && found.reply.error != Unreachable ==>
            r == Ran(found.s, Return(Result(true, 1), Some(found.reply.error))))
  {
    hide Call, RemoveJob, StoreSettings, ReconcileDir;
  }

  /** With the document found, any left-over init job is swept, whatever comes of that; then the settings are written,
      and management restarted, if and only if a drive flag is not as the spec wants it. */
  lemma FoundSettingsDecide(s: Sys)
    requires Call(s, FindSettings).reply.SettingsAre?
    ensures var found := Call(s, FindSettings); var swept := RemoveJob(found.s, "mgmt-init-db"); var spec := s.cr.spec;
      var x := found.reply.settings;
      var agrees := x.autoFormatDrive == !spec.disableAutoFormatDrives && x.autoEvictMissingDrive == !spec.disableAutoEvictMissingDrives;
      && (swept.flow.Killed? ==> HandleDb(s) == swept)
      && (!swept.flow.Killed? && agrees ==> HandleDb(s) == Ran(swept.s, OK))
      && (!swept.flow.Killed? && !agrees ==>
            var written := Call(swept.s, UpdateSettings(DbSettings(!spec.disableAutoFormatDrives, !spec.disableAutoEvictMissingDrives)));
            && (written.reply.Silence? || written.reply.Fails? ==> HandleDb(s).s == written.s && HandleDb(s).flow != OK)
            && (!written.reply.Silence? && !written.reply.Fails? ==>
                  HandleDb(s).s == Restart(written.s, Key("StatefulSet", "nvmesh-management"), 4).s))
  {
    hide Call, RemoveJob, Restart;
    CallAndDb(s, FindSettings);
    JobRemovalCreates(Call(s, FindSettings).s, INIT_DB_JOB);
  }

  predicate MgmtCreated(res: Resources, log: seq<Entry>, from: nat)
  {
    exists i :: from <= i < |log| && Puts(log[i].request) && MgmtOnly(res, log[i].request.manifest.key)
  }

  lemma AfterDbIsProper(s: Sys, from: nat)
    requires from <= |s.w.log| && Proper(s.w.res, s.w.log, from)
    requires !MgmtCreated(s.w.res, s.w.log, from)
    ensures var r := AfterDb(HandleDb(s));
      && s.w.log <= r.s.w.log && r.s.w.res == s.w.res && Proper(s.w.res, r.s.w.log, from)
      && (DbLeftAlone(s.ticks) && (r.flow == OK || MgmtCreated(s.w.res, r.s.w.log, from)) ==>
            FlagsFollow(r.s.w, s.cr.spec))
  {
    hide HandleDb, ReconcileDir, Call, Lists;
    var res := s.w.res;
    var handled := HandleDb(s);
    DbIsHandled(s);
    assert !MgmtCreated(res, handled.s.w.log, from) by { NoneCreated(s, handled.s, from); }
    if handled.flow == OK {
      var r := ReconcileDir(handled.s, res.mgmtComponent, res.mgmt, false);
      DirCreates(handled.s, res.mgmtComponent, res.mgmt, false);
    } else if handled.flow == Fail(NoDocuments) {
      InitJobIsProper(handled.s, from);
    }
  }

  lemma NoneCreated(s: Sys, t: Sys, from: nat)
    requires CreatesNothing(s, t) && from <= |s.w.log| && !MgmtCreated(s.w.res, s.w.log, from)
    ensures !MgmtCreated(s.w.res, t.w.log, from)
  {
    forall i | from <= i < |t.w.log|
      ensures !(Puts(t.w.log[i].request) && MgmtOnly(s.w.res, t.w.log[i].request.manifest.key))
    {
      if i < |s.w.log| { assert t.w.log[i] == s.w.log[i]; }
    }
  }

  lemma InitJobIsProper(s: Sys, from: nat)
    requires from <= |s.w.log| && Proper(s.w.res, s.w.log, from) && !MgmtCreated(s.w.res, s.w.log, from)
    requires Asked(s.w.log, from, |s.w.log|, Fails(NoDocuments))
    ensures var t := StartJob(s, INIT_DB_JOB).s;
      s.w.log <= t.w.log && t.w.res == s.w.res && Proper(s.w.res, t.w.log, from) && !MgmtCreated(s.w.res, t.w.log, from)
  {
    hide Call, Lists;
    var t := StartJob(s, INIT_DB_JOB).s;
    CallAndDb(s, CreateJob(INIT_DB_JOB));
    forall i | from <= i < |t.w.log|
      ensures !(Puts(t.w.log[i].request) && MgmtOnly(s.w.res, t.w.log[i].request.manifest.key))
    {
      if i < |s.w.log| { assert t.w.log[i] == s.w.log[i]; }
    }
  }

  /** The management component on its own: order of requests, and, unless others write the settings too, a pass
      that deploys (or succeeds) leaves both drive flags as the spec wants them. */
  lemma ManagementWaitsForSettings(s: Sys)
    ensures var r := ReconcileManagement(s); var from := |s.w.log|;
      && s.w.log <= r.s.w.log && r.s.w.res == s.w.res && Proper(s.w.res, r.s.w.log, from)
      && (DbLeftAlone(s.ticks) && !s.cr.spec.mgmtDisabled && (r.flow == OK || MgmtCreated(s.w.res, r.s.w.log, from)) ==>
            FlagsFollow(r.s.w, s.cr.spec))
  {
    hide ReconcileDir, HandleDb, AfterDb, Lists;
    var res := s.w.res;
    var mongo := ReconcileDir(s, res.mgmtComponent, res.mongo, !DeployMongo(s.cr.spec));
    DirCreates(s, res.mgmtComponent, res.mongo, !DeployMongo(s.cr.spec));
    assert !MgmtCreated(res, mongo.s.w.log, |s.w.log|);
    if mongo.flow.Return? && mongo.flow.err.None? {
      if s.cr.spec.mgmtDisabled {
        var r := ReconcileDir(mongo.s, res.mgmtComponent, res.mgmt, true);
        DirRemovalCreates(mongo.s, res.mgmtComponent, res.mgmt);
        EmptyCreation(mongo.s, r.s);
      } else {
        AfterDbIsProper(mongo.s, |s.w.log|);
      }
    }
  }

  // ---- whole cycles ----------------------------------------------------------------------------

  lemma AllComponentsAreProper(s: Sys, from: nat)
    requires from <= |s.w.log| && Proper(s.w.res, s.w.log, from)
    ensures var t := ReconcileAll(s).s; s.w.log <= t.w.log && t.w.res == s.w.res && Proper(s.w.res, t.w.log, from)
  {
    hide ReconcileDir, ReconcileManagement, Lists;
    var res := s.w.res;
    var mgmt := ReconcileManagement(s).s;
    ManagementWaitsForSettings(s);
    var core := ReconcileCore(mgmt).s;
    DirCreates(mgmt, res.coreComponent, res.core, mgmt.cr.spec.coreDisabled);
    DirCreates(core, res.csiComponent, res.csi, core.cr.spec.csiDisabled);
  }

  lemma ConvergingIsProper(s: Sys, from: nat)
    requires Inv(s) && MayDeploy(s) && from <= |s.w.log| && Proper(s.w.res, s.w.log, from)
    ensures var t := Converge(s).s; s.w.log <= t.w.log && t.w.res == s.w.res && Proper(s.w.res, t.w.log, from)
  {
    hide Inv, MayDeploy, Calmer, Proper, ReconcileAll, Actions, Complain;
    var all := ReconcileAll(s);
    ReconcileAllDeploys(s);
    AllComponentsAreProper(s, from);
    if all.flow.Killed? {
    } else if all.flow.result.requeue {
      if all.flow.err.Some? {
        ComplainKeeps(all.s, all.flow.err.value, all.flow.result);
        CalmAndProper(all.s, Complain(all.s, all.flow.err.value, all.flow.result).s, from);
      }
    } else {
      ActionsKeep(all.s);
      CalmAndProper(all.s, Actions(all.s).s, from);
    }
  }

  lemma CalmAndProper(s: Sys, t: Sys, from: nat)
    requires Calmer(s.w, t.w) && from <= |s.w.log| && Proper(s.w.res, s.w.log, from)
    ensures s.w.log <= t.w.log && t.w.res == s.w.res && Proper(s.w.res, t.w.log, from)
  {
  }

  lemma FinalizedIsProper(fin: Ran, from: nat)
    requires Inv(fin.s) && (fin.flow == OK ==> MayDeploy(fin.s)) && Plain(fin.flow)
    requires from <= |fin.s.w.log| && Proper(fin.s.w.res, fin.s.w.log, from)
    ensures var t := AfterFinalizer(fin).s;
      fin.s.w.log <= t.w.log && t.w.res == fin.s.w.res && Proper(t.w.res, t.w.log, from)
  {
    hide Inv, MayDeploy, Calmer, Proper, Converge, Succeed, Complain;
    if fin.flow.Killed? {
    } else if fin.flow.err.Some? {
      ComplainKeeps(fin.s, fin.flow.err.value, Requeue(0));
      CalmAndProper(fin.s, Complain(fin.s, fin.flow.err.value, Requeue(0)).s, from);
    } else if fin.flow.result.requeue {
      SucceedKeeps(fin.s, fin.flow.result);
      CalmAndProper(fin.s, Succeed(fin.s, fin.flow.result).s, from);
    } else {
      ConvergingIsProper(fin.s, from);
    }
  }

  lemma HandlingIsProper(s: Sys, from: nat)
    requires Inv(s) && ReadInThisCycle(s) && from <= |s.w.log| && Proper(s.w.res, s.w.log, from)
    ensures var t := Handle(s).s; s.w.log <= t.w.log && t.w.res == s.w.res && Proper(t.w.res, t.w.log, from)
  {
    hide Inv, MayDeploy, Calmer, Proper, AfterFinalizer, HandleFinalizer, Complain, EnsureServiceAccount;
    if !ValidSpec(s.cr.spec) {
      ComplainKeeps(s, Invalid, Requeue(0));
      CalmAndProper(s, Complain(s, Invalid, Requeue(0)).s, from);
    } else {
      var account := EnsureServiceAccount(s);
      EnsureServiceAccountIsQuiet(s);
      CalmAndProper(s, account.s, from);
      if account.flow.Killed? {
      } else if account.flow.err.Some? {
        ComplainKeeps(account.s, account.flow.err.value, Requeue(0));
        CalmAndProper(account.s, Complain(account.s, account.flow.err.value, Requeue(0)).s, from);
      } else {
        ReadStays(s, account.s);
        var fin := HandleFinalizer(account.s);
        HandleFinalizerKeeps(account.s);
        CalmAndProper(account.s, fin.s, from);
        FinalizedIsProper(fin, from);
      }
    }
  }

  lemma CycleIsProper(s: Sys)
    requires Inv(s)
    ensures var t := Reconcile(s).s; s.w.log <= t.w.log && t.w.res == s.w.res && Proper(t.w.res, t.w.log, |s.w.log|)
  {
    hide Handle, Call, Calmer, StoredInv, InOrder, Shipped;
    var got := Call(s, GetCr);
    QuietCall(s, GetCr);
    CalmAndProper(s, got.s, |s.w.log|);
    if got.reply.CrIs? {
      AnsweredCopy(s, GetCr);
      StoredCopyExists(s);
      AdoptedCopy(got.s, got.reply.cr);
      HandlingIsProper(got.s.(cr := got.reply.cr), |s.w.log|);
    }
  }

  /** On every run, each cycle creates or writes a management object only after it found the settings document itself,
      and for the init-DB job only after it found the document missing. */
  lemma SettingsBeforeManagement(w: World, before: seq<Cycle>, c: Cycle, i: nat)
    requires Begins(w)
    requires var u := AfterCycles(w, before); |u.log| <= i < |AfterCycle(u, c).log|
    ensures var u := AfterCycles(w, before); var log := AfterCycle(u, c).log; var q := log[i].request;
      && (Puts(q) && MgmtOnly(u.res, q.manifest.key) ==> SettingsFound(log, |u.log|, i))
      && (q == CreateJob(INIT_DB_JOB) ==> Asked(log, |u.log|, i, Fails(NoDocuments)))
  {
    hide AfterCycles, Reconcile, Lists;
    var u := AfterCycles(w, before);
    BeginningKeeps(w);
    CyclesKeep(w, before);
    StartFits(u, c);
    CycleIsProper(Start(u, c));
  }
}
