/** What a cycle on a live resource brings about: which directories are deployed, which are removed, by which part of the
    spec. */
module CycleEffects {
  import opened Basics
  import opened Strings
  import opened Kube
  import opened Components
  import opened Objects
  import opened Jobs
  import opened Tasks
  import opened StatusUpdater
  import opened Management
  import opened Uninstall
  import opened Finalizer
  import opened CollectLogs
  import opened Reconciler
  import opened Convergence
  import opened Deployment

  // ---- results of directories --------------------------------------------------------------------

  lemma {:induction false} ManifestsPlain(s: Sys, component: Component, ms: seq<Manifest>, remove: bool, first: Option<Error>)
    ensures var flow := ReconcileManifests(s, component, ms, remove, first).flow; flow.Killed? || flow.result == DO_NOT_REQUEUE
    decreases |ms|
  {
    hide ReconcileObject;
    if ms != [] {
      var one := ReconcileObject(s, Some(component), ms[0], remove);
      if !one.flow.Killed? { ManifestsPlain(one.s, component, ms[1..], remove, FirstError(first, one.flow)); }
    }
  }

  /** A directory never asks for another cycle: it succeeds, fails, or dies. */
  lemma {:induction false} DirPlain(s: Sys, component: Component, files: seq<YamlFile>, remove: bool)
    ensures var flow := ReconcileDir(s, component, files, remove).flow;
      flow.Killed? || flow == OK || (flow.err.Some? && flow.result == DO_NOT_REQUEUE)
    decreases |files|
  {
    hide ReconcileManifests;
    if files != [] {
      var one := ReconcileFile(s, component, files[0], remove);
      if files[0].Readable? { ManifestsPlain(s, component, files[0].manifests, remove, None); }
      if one.flow == OK { DirPlain(one.s, component, files[1..], remove); }
    }
  }

  // ---- what the database part does to objects ----------------------------------------------------

  /** Only this one object's content may have changed, and no object came or went. */
  ghost predicate Around(s: Sys, t: Sys, key: Key)
  {
    && Stands(s, t) && Contents(t.w).Keys == Contents(s.w).Keys
    && forall k :: k in Contents(s.w) && k != key ==> Contents(t.w)[k] == Contents(s.w)[k]
  }

  lemma AroundOn(r: Sys, s: Sys, t: Sys, key: Key)
    requires Around(r, s, key) && Around(s, t, key)
    ensures Around(r, t, key)
  {
  }

  lemma AroundItself(s: Sys, key: Key)
    requires Undisturbed(s.ticks)
    ensures Around(s, s, key)
  {
  }

  lemma CallAround(s: Sys, q: Request, key: Key)
    requires Undisturbed(s.ticks) && !q.CreateObject? && !q.DeleteObject? && (q.UpdateObject? ==> q.manifest.key == key)
    ensures Around(s, Call(s, q).s, key) && Call(s, q).s.cr == s.cr
  {
    hide EnvRun, Answer;
    if s.ticks != [] { OthersLeaveObjects(s.w, s.ticks[0].steps); }
  }

  lemma {:induction false} RestartAround(s: Sys, key: Key, attempts: nat)
    requires Undisturbed(s.ticks)
    ensures Around(s, Restart(s, key, attempts).s, key)
    decreases attempts
  {
    hide Call, Contents;
    var found := Call(s, GetObject(key));
    CallAround(s, GetObject(key), key);
    if found.reply.ObjectIs? {
      var fields := Annotated(found.reply.stored.fields, TimeText(found.s.w.now));
      var q := UpdateObject(Manifest(key, fields), Some(found.reply.stored.version));
      var written := Call(found.s, q);
      CallAround(found.s, q, key);
      AroundOn(s, found.s, written.s, key);
      if written.reply == Fails(Conflict) && attempts > 1 {
        RestartAround(written.s, key, attempts - 1);
        AroundOn(s, written.s, Restart(written.s, key, attempts - 1).s, key);
      }
    }
  }

  lemma {:induction false} PodsAround(s: Sys, pods: seq<Pod>, key: Key)
    requires Undisturbed(s.ticks)
    ensures Around(s, DeletePods(s, pods).s, key)
    decreases |pods|
  {
    hide Call, Contents;
    AroundItself(s, key);
    if pods != [] {
      var one := Call(s, DeletePod(pods[0].name)).s;
      CallAround(s, DeletePod(pods[0].name), key);
      PodsAround(one, pods[1..], key);
      AroundOn(s, one, DeletePods(one, pods[1..]).s, key);
    }
  }

  lemma JobAround(s: Sys, job: string, key: Key)
    requires Undisturbed(s.ticks)
    ensures Around(s, RemoveJob(s, job).s, key) && Around(s, StartJob(s, job).s, key) && Around(s, WaitForJob(s, job).s, key)
  {
    hide Call, Contents;
    CallAround(s, CreateJob(job), key);
    CallAround(s, GetJob(job), key);
    var gone := Call(s, DeleteJob(job)).s;
    CallAround(s, DeleteJob(job), key);
    var listed := Call(gone, ListJobPods(job));
    CallAround(gone, ListJobPods(job), key);
    AroundOn(s, gone, listed.s, key);
    if listed.reply.PodsAre? {
      PodsAround(listed.s, listed.reply.pods, key);
      AroundOn(s, listed.s, DeletePods(listed.s, listed.reply.pods).s, key);
    }
  }

  lemma DbAround(s: Sys)
    requires Undisturbed(s.ticks)
    ensures Around(s, HandleDb(s).s, MGMT_SERVER)
  {
    hide Call, RemoveJob, Restart, Contents;
    var found := Call(s, FindSettings).s;
    CallAround(s, FindSettings, MGMT_SERVER);
    JobAround(found, INIT_DB_JOB, MGMT_SERVER);
    var swept := RemoveJob(found, INIT_DB_JOB).s;
    AroundOn(s, found, swept, MGMT_SERVER);
    var q := UpdateSettings(WantedSettings(swept.cr.spec));
    var written := Call(swept, q).s;
    CallAround(swept, q, MGMT_SERVER);
    AroundOn(s, swept, written, MGMT_SERVER);
    RestartAround(written, MGMT_SERVER, RESTART_ATTEMPTS);
    AroundOn(s, written, Restart(written, MGMT_SERVER, RESTART_ATTEMPTS).s, MGMT_SERVER);
  }

  // ---- the components ----------------------------------------------------------------------------

  /** The operator with its own three components, over directories that share no object. */
  ghost predicate Real(res: Resources)
  {
    && res.coreComponent == CoreComponent() && res.csiComponent == CsiComponent() && res.mgmtComponent == MgmtComponent()
    && DistinctKeys(AllManifests(res.core)) && DistinctKeys(AllManifests(res.csi))
    && DistinctKeys(AllManifests(res.mgmt)) && DistinctKeys(AllManifests(res.mongo))
    && (forall k :: !(KeyIn(AllManifests(res.core), k) && KeyIn(AllManifests(res.csi), k)))
    && (forall k :: !(KeyIn(AllManifests(res.mgmt), k) && KeyIn(AllManifests(res.mongo), k)))
    && (forall k :: KeyIn(AllManifests(res.core), k) || KeyIn(AllManifests(res.csi), k) ==>
          !KeyIn(AllManifests(res.mgmt), k) && !KeyIn(AllManifests(res.mongo), k) && k != MGMT_SERVER)
    && !KeyIn(AllManifests(res.mongo), MGMT_SERVER) && !KeyIn(AllManifests(res.mongo), MGMT_CONFIG)
  }

  /** None of the listed objects is there. */
  ghost predicate NoneLeft(files: seq<YamlFile>, d: map<Key, Fields>)
  {
    forall k :: KeyIn(AllManifests(files), k) ==> k !in d
  }

  /** All the listed objects are there as the component wants them, or none is. */
  ghost predicate Settles(component: Component, spec: Spec, files: seq<YamlFile>, d: map<Key, Fields>, wanted: bool)
  {
    if wanted then InPlace(component, spec, AllManifests(files), d) else NoneLeft(files, d)
  }

  /** From c to d nothing changed outside these files. */
  ghost predicate OnlyIn(files: seq<YamlFile>, c: map<Key, Fields>, d: map<Key, Fields>)
  {
    forall k :: !KeyIn(AllManifests(files), k) ==> (k in d <==> k in c) && (k in c ==> c[k] == d[k])
  }

  lemma SettlesStay(component: Component, spec: Spec, files: seq<YamlFile>, c: map<Key, Fields>, d: map<Key, Fields>, wanted: bool)
    requires Settles(component, spec, files, c, wanted)
    requires forall k :: KeyIn(AllManifests(files), k) ==> (k in d <==> k in c) && (k in c ==> c[k] == d[k])
    ensures Settles(component, spec, files, d, wanted)
  {
    hide Settled;
    var ms := AllManifests(files);
    if wanted {
      forall i | 0 <= i < |ms| ensures ms[i].key in d && Settled(component, spec, ms[i], d[ms[i].key]) {
        assert KeyIn(ms, ms[i].key);
      }
    }
  }

  /** One directory, deployed or removed as asked, for a component that never writes these on the side. */
  lemma DirSettles(s: Sys, component: Component, files: seq<YamlFile>, wanted: bool)
    requires Undisturbed(s.ticks) && DistinctKeys(AllManifests(files)) && SettlesOnAll(component, s.cr.spec, AllManifests(files))
    requires NoRestartDue(component, s.cr.spec, AllManifests(files), Contents(s.w))
    ensures var r := ReconcileDir(s, component, files, !wanted);
      && Stands(s, r.s) && OnlyIn(files, Contents(s.w), Contents(r.s.w))
      && (r.flow == OK ==> Settles(component, s.cr.spec, files, Contents(r.s.w), wanted))
  {
    hide ReconcileDir, SettlesOnAll, NoRestartDue, InPlace;
    if wanted { CreateDirectory(s, component, files); } else { RemoveDirectory(s, component, files); }
  }

  lemma CoreReady(spec: Spec, files: seq<YamlFile>, c: map<Key, Fields>)
    ensures SettlesOnAll(CoreComponent(), spec, AllManifests(files)) && NoRestartDue(CoreComponent(), spec, AllManifests(files), c)
  {
    hide SettlesOn, RestartDue, CoreComponent;
    var ms := AllManifests(files);
    forall i | 0 <= i < |ms| ensures SettlesOn(CoreComponent(), spec, ms[i]) && !RestartDue(CoreComponent(), spec, ms[i], c) {
      CoreSettles(spec, ms[i]);
    }
  }

  lemma CsiReady(spec: Spec, files: seq<YamlFile>, c: map<Key, Fields>)
    ensures SettlesOnAll(CsiComponent(), spec, AllManifests(files)) && NoRestartDue(CsiComponent(), spec, AllManifests(files), c)
  {
    hide SettlesOn, RestartDue, CsiComponent;
    var ms := AllManifests(files);
    forall i | 0 <= i < |ms| ensures SettlesOn(CsiComponent(), spec, ms[i]) && !RestartDue(CsiComponent(), spec, ms[i], c) {
      CsiSettles(spec, ms[i]);
    }
  }

  lemma MgmtReady(w: World, spec: Spec, files: seq<YamlFile>)
    requires !StaleConfig(w, spec) || !KeyIn(AllManifests(files), MGMT_CONFIG)
    ensures SettlesOnAll(MgmtComponent(), spec, AllManifests(files))
    ensures NoRestartDue(MgmtComponent(), spec, AllManifests(files), Contents(w))
  {
    hide SettlesOn, RestartDue, MgmtComponent, StaleConfig;
    var ms := AllManifests(files);
    forall i | 0 <= i < |ms|
      ensures SettlesOn(MgmtComponent(), spec, ms[i]) && !RestartDue(MgmtComponent(), spec, ms[i], Contents(w))
    {
      MgmtSettles(spec, ms[i]);
      assert KeyIn(ms, ms[i].key);
    }
  }

  lemma StaleStays(w: World, v: World, spec: Spec)
    requires MGMT_CONFIG in Contents(v) ==> MGMT_CONFIG in Contents(w) && Contents(v)[MGMT_CONFIG] == Contents(w)[MGMT_CONFIG]
    requires !StaleConfig(w, spec)
    ensures !StaleConfig(v, spec)
  {
    assert MGMT_CONFIG in v.objs ==> MGMT_CONFIG in Contents(v);
  }

  /** Management without error or requeue: its objects are deployed exactly if it is not disabled, and mongo's exactly if
      it is not disabled and the database is not an external one. */
  lemma ManagementTakesEffect(s: Sys)
    requires Undisturbed(s.ticks) && Real(s.w.res) && !StaleConfig(s.w, s.cr.spec)
    requires var flow := ReconcileManagement(s).flow; flow.Return? && !flow.result.requeue && flow.err.None?
    ensures var t := ReconcileManagement(s).s; var d := Contents(t.w); var spec := s.cr.spec; var res := s.w.res;
      && Stands(s, t)
      && Settles(MgmtComponent(), spec, res.mgmt, d, !spec.mgmtDisabled)
      && Settles(MgmtComponent(), spec, res.mongo, d, !spec.mgmtDisabled && !spec.mongoExternal)
  {
    hide ReconcileDir, HandleDb, StartJob, Settles, Contents, KeyIn, InPlace, StaleConfig, SettlesOnAll, NoRestartDue, MgmtComponent;
    var res, spec := s.w.res, s.cr.spec;
    var deploy := !spec.mgmtDisabled && !spec.mongoExternal;
    MgmtReady(s.w, spec, res.mongo);
    DirSettles(s, MgmtComponent(), res.mongo, deploy);
    DirPlain(s, MgmtComponent(), res.mongo, !deploy);
    var mongo := ReconcileDir(s, MgmtComponent(), res.mongo, !deploy);
    StaleStays(s.w, mongo.s.w, spec);
    if spec.mgmtDisabled {
      DirPlain(mongo.s, MgmtComponent(), res.mgmt, true);
      ManagementFollows(s, mongo.s, mongo.s, false, deploy);
    } else {
      var handled := HandleDb(mongo.s);
      DbAround(mongo.s);
      DbPlain(mongo.s);
      AroundContents(mongo.s, handled.s);
      SettlesStay(MgmtComponent(), spec, res.mongo, Contents(mongo.s.w), Contents(handled.s.w), deploy);
      StaleStays(mongo.s.w, handled.s.w, spec);
      DirPlain(handled.s, MgmtComponent(), res.mgmt, false);
      ManagementFollows(s, mongo.s, handled.s, true, deploy);
    }
  }

  lemma AroundContents(s: Sys, t: Sys)
    requires Around(s, t, MGMT_SERVER)
    ensures forall k :: k != MGMT_SERVER ==>
      (k in Contents(t.w) <==> k in Contents(s.w)) && (k in Contents(s.w) ==> Contents(s.w)[k] == Contents(t.w)[k])
    ensures Stands(s, t)
  {
  }

  lemma DbPlain(s: Sys)
    ensures var flow := HandleDb(s).flow; flow.Killed? || flow == OK || flow.err.Some?
    ensures var flow := AfterDb(HandleDb(s)).flow; flow.Return? && !flow.result.requeue ==> HandleDb(s).flow == OK
  {
    hide Call, RemoveJob, Restart, StartJob, ReconcileDir;
  }

  /** The directory of management itself, once mongo and the database are settled. */
  lemma ManagementFollows(s: Sys, mongo: Sys, t: Sys, wanted: bool, deploy: bool)
    requires Stands(s, mongo) && Stands(mongo, t) && Real(s.w.res) && !StaleConfig(t.w, s.cr.spec)
    requires Settles(MgmtComponent(), s.cr.spec, s.w.res.mongo, Contents(t.w), deploy)
    requires ReconcileDir(t, MgmtComponent(), s.w.res.mgmt, !wanted).flow == OK
    ensures var r := ReconcileDir(t, MgmtComponent(), s.w.res.mgmt, !wanted); var d := Contents(r.s.w);
      && Stands(s, r.s)
      && Settles(MgmtComponent(), s.cr.spec, s.w.res.mgmt, d, wanted)
      && Settles(MgmtComponent(), s.cr.spec, s.w.res.mongo, d, deploy)
  {
    hide ReconcileDir, Settles, Contents, KeyIn, InPlace, StaleConfig, SettlesOnAll, NoRestartDue, MgmtComponent;
    var res, spec := s.w.res, s.cr.spec;
    MgmtReady(t.w, spec, res.mgmt);
    DirSettles(t, MgmtComponent(), res.mgmt, wanted);
    var r := ReconcileDir(t, MgmtComponent(), res.mgmt, !wanted);
    SettlesStay(MgmtComponent(), spec, res.mongo, Contents(t.w), Contents(r.s.w), deploy);
  }

  /** What the spec says is there: each component by its own flag, mongo by management's and its own. */
  ghost predicate AsSpecified(res: Resources, spec: Spec, d: map<Key, Fields>)
  {
    && Settles(CoreComponent(), spec, res.core, d, !spec.coreDisabled)
    && Settles(CsiComponent(), spec, res.csi, d, !spec.csiDisabled)
    && Settles(MgmtComponent(), spec, res.mgmt, d, !spec.mgmtDisabled)
    && Settles(MgmtComponent(), spec, res.mongo, d, !spec.mgmtDisabled && !spec.mongoExternal)
  }

  /** The three components together, if they report neither an error nor a requeue. */
  lemma ComponentsTakeEffect(s: Sys)
    requires Undisturbed(s.ticks) && Real(s.w.res) && !StaleConfig(s.w, s.cr.spec)
    requires var flow := ReconcileAll(s).flow; flow.Return? && !flow.result.requeue && flow.err.None?
    ensures var t := ReconcileAll(s).s; Stands(s, t) && AsSpecified(s.w.res, s.cr.spec, Contents(t.w))
  {
    hide ReconcileDir, ReconcileManagement, Settles, Contents, KeyIn, InPlace, StaleConfig, SettlesOnAll, NoRestartDue,
      MgmtComponent, CoreComponent, CsiComponent;
    var res, spec := s.w.res, s.cr.spec;
    ManagementTakesEffect(s);
    var mgmt := ReconcileManagement(s).s;
    CoreReady(spec, res.core, Contents(mgmt.w));
    DirSettles(mgmt, CoreComponent(), res.core, !spec.coreDisabled);
    DirPlain(mgmt, CoreComponent(), res.core, spec.coreDisabled);
    var core := ReconcileDir(mgmt, CoreComponent(), res.core, spec.coreDisabled).s;
    SettlesStay(MgmtComponent(), spec, res.mgmt, Contents(mgmt.w), Contents(core.w), !spec.mgmtDisabled);
    SettlesStay(MgmtComponent(), spec, res.mongo, Contents(mgmt.w), Contents(core.w), !spec.mgmtDisabled && !spec.mongoExternal);
    CsiReady(spec, res.csi, Contents(core.w));
    DirSettles(core, CsiComponent(), res.csi, !spec.csiDisabled);
    DirPlain(core, CsiComponent(), res.csi, spec.csiDisabled);
    var csi := ReconcileDir(core, CsiComponent(), res.csi, spec.csiDisabled).s;
    SettlesStay(MgmtComponent(), spec, res.mgmt, Contents(core.w), Contents(csi.w), !spec.mgmtDisabled);
    SettlesStay(MgmtComponent(), spec, res.mongo, Contents(core.w), Contents(csi.w), !spec.mgmtDisabled && !spec.mongoExternal);
    SettlesStay(CoreComponent(), spec, res.core, Contents(core.w), Contents(csi.w), !spec.coreDisabled);
  }
}
