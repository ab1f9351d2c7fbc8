/** Every stage of the uninstall keeps the invariant, brings nothing back, and does what its name says
    before it reports success. */
module StageSafety {
  import opened Basics
  import opened Kube
  import opened Objects
  import opened Jobs
  import opened Tasks
  import opened Management
  import opened Uninstall
  import opened Safety

  // ---- what a reply says about the world it leaves behind --------------------------------------

  lemma ReplyTells(s: Sys, q: Request)
    ensures var a := Call(s, q);
      && (q.GetObject? && (a.reply == Fails(NotFound) || a.reply == Fails(NoKindMatch)) ==> q.key !in a.s.w.objs)
      && (q.DeleteObject? && a.reply == Done ==> q.key !in a.s.w.objs)
      && (q.ListWorkloadPods? && a.reply.PodsAre? ==> a.reply.pods == WorkloadPods(a.s.w.pods))
      && (s.ticks == [] ==> a.reply.Silence?)
      && (s.ticks != [] ==> (
            var n := |a.s.w.log| - 1;
            n >= 0 && a.s.w.log[n] == Entry(q, a.reply, a.s.w.log[n].landed, Uninstalling(s.cr))))
  {
  }

  /** Nothing but calm requests: the invariant holds on, the copy is the same, nothing came back. */
  ghost predicate Quiet(s: Sys, t: Sys)
  {
    && Inv(t) && t.cr == s.cr && Calmer(s.w, t.w) && NoCrUpdates(s.w, t.w)
    && (MayDeploy(s) ==> MayDeploy(t))
  }

  /** Between the two, nobody asked to update the custom resource itself: its spec or its finalizers. */
  ghost predicate NoCrUpdates(w: World, v: World)
  {
    forall i :: |w.log| <= i < |v.log| ==> !v.log[i].request.UpdateCr?
  }

  /** A result either asks for another turn or is the plain one. */
  predicate Plain(flow: Flow)
  {
    flow.Killed? || flow.result.requeue || flow.result == DO_NOT_REQUEUE
  }

  lemma QuietTransitive(r: Sys, s: Sys, t: Sys)
    requires Quiet(r, s) && Quiet(s, t)
    ensures Quiet(r, t)
  {
    CalmerTransitive(r.w, s.w, t.w);
  }

  lemma QuietReflexive(s: Sys)
    requires Inv(s)
    ensures Quiet(s, s)
  {
  }

  lemma QuietCall(s: Sys, q: Request)
    requires Inv(s) && Allowed(s, q) && !Builds(s.w.res, q) && !q.UpdateCr?
    ensures Quiet(s, Call(s, q).s)
  {
    CallKeeps(s, q);
    OneMoreEntry(s, q);
  }

  // ---- removing objects ------------------------------------------------------------------------

  /** Objects of the mongo directory go only after the clear-DB job was seen settled. */
  ghost predicate MayRemove(s: Sys, key: Key)
  {
    Uninstalling(s.cr) && Lists(s.w.res.mongo, key) ==> SawClearDbSettled(s.w.log)
  }

  ghost predicate MayRemoveAll(s: Sys, files: seq<YamlFile>)
  {
    forall k :: Lists(files, k) ==> MayRemove(s, k)
  }

  lemma RemoveObjectIsQuiet(s: Sys, key: Key)
    requires Inv(s) && MayRemove(s, key)
    ensures Quiet(s, RemoveObject(s, key).s)
    ensures var flow := RemoveObject(s, key).flow; flow.Killed? || flow.result == DO_NOT_REQUEUE
    ensures RemoveObject(s, key).flow == OK ==> key !in RemoveObject(s, key).s.w.objs
  {
    hide StoredInv, CopyInv, InOrder, Shipped, Calmer, Call, MayRemove;
    var found := Call(s, GetObject(key));
    QuietCall(s, GetObject(key));
    ReplyTells(s, GetObject(key));
    AnswersFit(found.s, DeleteObject(key));
    if found.reply != Silence && !found.reply.Fails? {
      MayRemoveStays(s, found.s, key);
      QuietCall(found.s, DeleteObject(key));
      ReplyTells(found.s, DeleteObject(key));
      QuietTransitive(s, found.s, Call(found.s, DeleteObject(key)).s);
    }
  }

  lemma MayRemoveStays(s: Sys, t: Sys, key: Key)
    requires MayRemove(s, key) && Quiet(s, t)
    ensures MayRemove(t, key)
  {
  }

  ghost predicate Removable(s: Sys, ms: seq<Manifest>)
  {
    forall m :: m in ms ==> MayRemove(s, m.key) && Managed(s.w.res, m.key)
  }

  lemma RemovableStays(s: Sys, t: Sys, ms: seq<Manifest>)
    requires ms != [] && Removable(s, ms) && Quiet(s, t)
    ensures Removable(t, ms[1..])
  {
    forall m | m in ms[1..] ensures MayRemove(t, m.key) { MayRemoveStays(s, t, m.key); }
  }

  ghost predicate NonePresent(w: World, ms: seq<Manifest>)
  {
    forall m :: m in ms ==> m.key !in w.objs
  }

  lemma HeadStaysGone(s: Sys, t: Sys, ms: seq<Manifest>)
    requires ms != [] && Quiet(s, t) && ms[0].key !in s.w.objs && Managed(s.w.res, ms[0].key)
    requires NonePresent(t.w, ms[1..])
    ensures NonePresent(t.w, ms)
  {
    assert forall m :: m in ms ==> m == ms[0] || m in ms[1..];
  }

  lemma {:induction false} ManifestsAreRemoved(s: Sys, component: Component, ms: seq<Manifest>, first: Option<Error>)
    requires Inv(s) && Removable(s, ms)
    ensures var r := ReconcileManifests(s, component, ms, true, first);
      && Quiet(s, r.s)
      && (r.flow == OK ==> first.None? && NonePresent(r.s.w, ms))
      && (r.flow.Killed? || r.flow.result == DO_NOT_REQUEUE)
    decreases |ms|
  {
    hide RemoveObject, MayRemove, StoredInv, CopyInv, InOrder, Shipped, Calmer;
    QuietReflexive(s);
    if ms != [] {
      var one := RemoveObject(s, ms[0].key);
      RemoveObjectIsQuiet(s, ms[0].key);
      if !one.flow.Killed? {
        var error := FirstError(first, one.flow);
        var r := ReconcileManifests(one.s, component, ms[1..], true, error);
        RemovableStays(s, one.s, ms);
        ManifestsAreRemoved(one.s, component, ms[1..], error);
        QuietTransitive(s, one.s, r.s);
        if r.flow == OK {
          SameResources(s, one.s);
          HeadStaysGone(one.s, r.s, ms);
        }
      }
    }
  }

  lemma SameResources(s: Sys, t: Sys)
    requires Quiet(s, t)
    ensures t.w.res == s.w.res
  {
  }

  lemma {:induction false} DirIsRemoved(s: Sys, component: Component, files: seq<YamlFile>)
    requires Inv(s) && MayRemoveAll(s, files) && forall k :: Lists(files, k) ==> Managed(s.w.res, k)
    ensures var r := ReconcileDir(s, component, files, true);
      && Quiet(s, r.s)
      && (r.flow == OK ==> Absent(r.s.w, files))
      && (r.flow.Killed? || r.flow.result == DO_NOT_REQUEUE)
    decreases |files|
  {
    if files == [] {
      QuietReflexive(s);
    } else {
      var one := ReconcileFile(s, component, files[0], true);
      if files[0].Readable? {
        forall m | m in files[0].manifests ensures MayRemove(s, m.key) && Managed(s.w.res, m.key) {
        }
        assert Removable(s, files[0].manifests);
        ManifestsAreRemoved(s, component, files[0].manifests, None);
      } else {
        QuietReflexive(s);
      }
      if one.flow == OK {
        forall k | Lists(files[1..], k) ensures MayRemove(one.s, k) && Managed(one.s.w.res, k) {
          MayRemoveStays(s, one.s, k);
        }
        var r := ReconcileDir(one.s, component, files[1..], true);
        DirIsRemoved(one.s, component, files[1..]);
        QuietTransitive(s, one.s, r.s);
        if r.flow == OK {
          forall k | Lists(files, k) ensures k !in r.s.w.objs {}
        }
      }
    }
  }

  // ---- jobs ------------------------------------------------------------------------------------

  lemma StartJobIsQuiet(s: Sys, job: string)
    requires Inv(s) && Allowed(s, CreateJob(job)) && job != INIT_DB_JOB
    ensures Quiet(s, StartJob(s, job).s)
    ensures StartJob(s, job).flow == OK && job == CLEAR_DB_JOB && Uninstalling(s.cr) ==> AskedClearDb(StartJob(s, job).s.w.log)
    ensures var flow := StartJob(s, job).flow; flow.Killed? || flow.result == DO_NOT_REQUEUE
  {
    hide StoredInv, CopyInv, InOrder, Shipped, Calmer, Call;
    var a := Call(s, CreateJob(job));
    AnswersFit(s, CreateJob(job));
    QuietCall(s, CreateJob(job));
    ReplyTells(s, CreateJob(job));
    if StartJob(s, job).flow == OK && job == CLEAR_DB_JOB && Uninstalling(s.cr) {
      var e := a.s.w.log[|a.s.w.log| - 1];
      assert e in a.s.w.log && ClearDbAsked(e);
    }
  }

  lemma WaitForJobIsQuiet(s: Sys, job: string)
    requires Inv(s)
    ensures Quiet(s, WaitForJob(s, job).s)
    ensures Plain(WaitForJob(s, job).flow)
    ensures var r := WaitForJob(s, job);
      !r.flow.Killed? && !r.flow.result.requeue && job == CLEAR_DB_JOB && Uninstalling(s.cr) ==> SawClearDbSettled(r.s.w.log)
  {
    hide StoredInv, CopyInv, InOrder, Shipped, Calmer, Call;
    var a := Call(s, GetJob(job));
    QuietCall(s, GetJob(job));
    ReplyTells(s, GetJob(job));
    var r := WaitForJob(s, job);
    if !r.flow.Killed? && !r.flow.result.requeue && job == CLEAR_DB_JOB && Uninstalling(s.cr) {
      var e := a.s.w.log[|a.s.w.log| - 1];
      assert e in a.s.w.log && ClearDbSettled(e);
    }
  }

  lemma {:induction false} DeletePodsIsQuiet(s: Sys, pods: seq<Pod>)
    requires Inv(s)
    ensures Quiet(s, DeletePods(s, pods).s)
    ensures var flow := DeletePods(s, pods).flow; flow.Killed? || flow.result == DO_NOT_REQUEUE
    decreases |pods|
  {
    if pods == [] {
      QuietReflexive(s);
    } else {
      var one := Call(s, DeletePod(pods[0].name)).s;
      QuietCall(s, DeletePod(pods[0].name));
      DeletePodsIsQuiet(one, pods[1..]);
      QuietTransitive(s, one, DeletePods(one, pods[1..]).s);
    }
  }

  lemma RemoveJobIsQuiet(s: Sys, job: string)
    requires Inv(s)
    ensures Quiet(s, RemoveJob(s, job).s)
    ensures var flow := RemoveJob(s, job).flow; flow.Killed? || flow.result == DO_NOT_REQUEUE
  {
    hide StoredInv, CopyInv, InOrder, Shipped, Calmer, Call, DeletePods;
    var gone := Call(s, DeleteJob(job)).s;
    QuietCall(s, DeleteJob(job));
    var listed := Call(gone, ListJobPods(job));
    QuietCall(gone, ListJobPods(job));
    QuietTransitive(s, gone, listed.s);
    if listed.reply.PodsAre? {
      DeletePodsIsQuiet(listed.s, listed.reply.pods);
      QuietTransitive(s, listed.s, DeletePods(listed.s, listed.reply.pods).s);
    }
  }

  // ---- the stages ------------------------------------------------------------------------------

  lemma RemoveWorkloadsIsQuiet(s: Sys)
    requires Inv(s)
    ensures Quiet(s, RemoveWorkloads(s).s)
    ensures RemoveWorkloads(s).flow == OK ==> WorkloadsAbsent(RemoveWorkloads(s).s.w)
    ensures var flow := RemoveWorkloads(s).flow; flow.Killed? || flow.result == DO_NOT_REQUEUE
  {
    var res := s.w.res;
    assert forall k :: Workload(res, k) ==> MayRemove(s, k);
    var core := ReconcileDir(s, res.coreComponent, res.core, true);
    DirIsRemoved(s, res.coreComponent, res.core);
    if core.flow == OK {
      forall k | Workload(res, k) ensures MayRemove(core.s, k) { MayRemoveStays(s, core.s, k); }
      var csi := ReconcileDir(core.s, res.csiComponent, res.csi, true);
      DirIsRemoved(core.s, res.csiComponent, res.csi);
      QuietTransitive(s, core.s, csi.s);
      if csi.flow == OK {
        forall k | Workload(res, k) ensures MayRemove(csi.s, k) { MayRemoveStays(s, csi.s, k); }
        var mgmt := ReconcileDir(csi.s, res.mgmtComponent, res.mgmt, true);
        DirIsRemoved(csi.s, res.mgmtComponent, res.mgmt);
        QuietTransitive(s, csi.s, mgmt.s);
      }
    }
  }

  lemma AwaitDrainIsQuiet(s: Sys)
    requires Inv(s) && Uninstalling(s.cr)
    ensures Quiet(s, AwaitDrain(s).s)
    ensures Plain(AwaitDrain(s).flow)
    ensures AwaitDrain(s).flow == OK ==> StageEffect(AwaitDrain(s).s.w, 1)
  {
    QuietCall(s, ListWorkloadPods);
    if AwaitDrain(s).flow == OK { EmptyListingDrains(s); }
  }

  lemma EmptyListingDrains(s: Sys)
    requires Uninstalling(s.cr) && AwaitDrain(s).flow == OK
    ensures StageEffect(AwaitDrain(s).s.w, 1)
  {
    var a := Call(s, ListWorkloadPods);
    ReplyTells(s, ListWorkloadPods);
    assert a.reply.PodsAre?;
    var e := a.s.w.log[|a.s.w.log| - 1];
    assert e in a.s.w.log && DrainSeen(e);
  }

  lemma AwaitClearDbIsQuiet(s: Sys)
    requires Inv(s) && Uninstalling(s.cr)
    ensures Quiet(s, AwaitClearDb(s).s)
    ensures Plain(AwaitClearDb(s).flow)
    ensures AwaitClearDb(s).flow == OK ==> StageEffect(AwaitClearDb(s).s.w, 3)
  {
    var waited := WaitForJob(s, CLEAR_DB_JOB);
    WaitForJobIsQuiet(s, CLEAR_DB_JOB);
    if !waited.flow.Killed? && !waited.flow.result.requeue {
      var r := RemoveJob(waited.s, CLEAR_DB_JOB);
      RemoveJobIsQuiet(waited.s, CLEAR_DB_JOB);
      QuietTransitive(s, waited.s, r.s);
    }
  }

  lemma RemoveMongoIsQuiet(s: Sys)
    requires Inv(s) && (Uninstalling(s.cr) ==> SawClearDbSettled(s.w.log))
    ensures var r := ReconcileDir(s, s.w.res.mgmtComponent, s.w.res.mongo, true);
      Quiet(s, r.s) && (r.flow == OK ==> StageEffect(r.s.w, 4)) && (r.flow.Killed? || r.flow.result == DO_NOT_REQUEUE)
  {
    DirIsRemoved(s, s.w.res.mgmtComponent, s.w.res.mongo);
  }

  lemma NodesWithLabelIsQuiet(s: Sys, key: string)
    requires Inv(s)
    ensures Quiet(s, NodesWithLabel(s, key).s)
    ensures Plain(NodesWithLabel(s, key).flow)
  {
    QuietCall(s, ListNodes(key));
  }

  lemma ClusterNodesIsQuiet(s: Sys)
    requires Inv(s)
    ensures Quiet(s, ClusterNodes(s).s)
    ensures Plain(ClusterNodes(s).flow)
  {
    var clients := NodesWithLabel(s, CLIENT_LABEL).s;
    NodesWithLabelIsQuiet(s, CLIENT_LABEL);
    NodesWithLabelIsQuiet(clients, TARGET_LABEL);
    QuietTransitive(s, clients, NodesWithLabel(clients, TARGET_LABEL).s);
  }

  lemma UninstallJobIsNoOther(node: string)
    ensures UninstallJob(node) != CLEAR_DB_JOB && UninstallJob(node) != INIT_DB_JOB
  {
    assert UninstallJob(node)[1] == '-' && CLEAR_DB_JOB[1] == 'v' && INIT_DB_JOB[1] == 'g';
  }

  lemma {:induction false} NodeJobsAreQuiet(s: Sys, nodes: seq<string>)
    requires Inv(s)
    ensures Quiet(s, StartUninstallJobs(s, nodes).s)
    ensures Plain(StartUninstallJobs(s, nodes).flow)
    ensures Quiet(s, AwaitUninstallJobs(s, nodes).s)
    ensures Plain(AwaitUninstallJobs(s, nodes).flow)
    ensures Quiet(s, DeleteUninstallJobs(s, nodes).s)
    ensures Plain(DeleteUninstallJobs(s, nodes).flow)
    decreases |nodes|
  {
    if nodes == [] {
      QuietReflexive(s);
    } else {
      var job := UninstallJob(nodes[0]);
      UninstallJobIsNoOther(nodes[0]);
      StartJobIsQuiet(s, job);
      var started := StartJob(s, job).s;
      NodeJobsAreQuiet(started, nodes[1..]);
      QuietTransitive(s, started, StartUninstallJobs(started, nodes[1..]).s);
      WaitForJobIsQuiet(s, job);
      var waited := WaitForJob(s, job).s;
      NodeJobsAreQuiet(waited, nodes[1..]);
      QuietTransitive(s, waited, AwaitUninstallJobs(waited, nodes[1..]).s);
      RemoveJobIsQuiet(s, job);
      var gone := RemoveJob(s, job).s;
      NodeJobsAreQuiet(gone, nodes[1..]);
      QuietTransitive(s, gone, DeleteUninstallJobs(gone, nodes[1..]).s);
    }
  }

  lemma UninstallClusterNodesIsQuiet(s: Sys)
    requires Inv(s)
    ensures Quiet(s, UninstallClusterNodes(s).s)
    ensures Plain(UninstallClusterNodes(s).flow)
  {
    hide StoredInv, CopyInv, InOrder, Shipped, Calmer, ClusterNodes, StartUninstallJobs, AwaitUninstallJobs, DeleteUninstallJobs;
    var listed := ClusterNodes(s);
    ClusterNodesIsQuiet(s);
    var nodes := s.order(listed.nodes);
    NodeJobsAreQuiet(listed.s, nodes);
    var started := StartUninstallJobs(listed.s, nodes);
    QuietTransitive(s, listed.s, started.s);
    NodeJobsAreQuiet(started.s, nodes);
    var waited := AwaitUninstallJobs(started.s, nodes);
    QuietTransitive(s, started.s, waited.s);
    NodeJobsAreQuiet(waited.s, nodes);
    QuietTransitive(s, waited.s, DeleteUninstallJobs(waited.s, nodes).s);
  }

  lemma {:induction false} RemoveClaimsIsQuiet(s: Sys, names: seq<string>)
    requires Inv(s)
    ensures Quiet(s, RemoveClaims(s, names).s)
    ensures Plain(RemoveClaims(s, names).flow)
    decreases |names|
  {
    if names == [] {
      QuietReflexive(s);
    } else {
      var key := Key(PVC, names[0]);
      assert !Managed(s.w.res, key);
      RemoveObjectIsQuiet(s, key);
      var one := RemoveObject(s, key).s;
      RemoveClaimsIsQuiet(one, names[1..]);
      QuietTransitive(s, one, RemoveClaims(one, names[1..]).s);
    }
  }

  lemma DeletePvcsIsQuiet(s: Sys)
    requires Inv(s)
    ensures Quiet(s, DeletePvcs(s).s)
    ensures Plain(DeletePvcs(s).flow)
  {
    hide StoredInv, CopyInv, InOrder, Shipped, Calmer, Call, RemoveClaims;
    var listed := Call(s, ListMarkedPvcs);
    QuietCall(s, ListMarkedPvcs);
    if listed.reply.PvcsAre? {
      RemoveClaimsIsQuiet(listed.s, listed.reply.names);
      QuietTransitive(s, listed.s, RemoveClaims(listed.s, listed.reply.names).s);
    }
  }

  lemma RemoveServiceAccountIsQuiet(s: Sys)
    requires Inv(s)
    ensures Quiet(s, RemoveServiceAccount(s).s)
    ensures Plain(RemoveServiceAccount(s).flow)
  {
    hide StoredInv, CopyInv, InOrder, Calmer, RemoveObject;
    var account := RemoveObject(s, SERVICE_ACCOUNT.key).s;
    RemoveObjectIsQuiet(s, SERVICE_ACCOUNT.key);
    var role := RemoveObject(account, CLUSTER_ROLE.key).s;
    RemoveObjectIsQuiet(account, CLUSTER_ROLE.key);
    QuietTransitive(s, account, role);
    RemoveObjectIsQuiet(role, ROLE_BINDING.key);
    QuietTransitive(s, role, RemoveObject(role, ROLE_BINDING.key).s);
  }

  /** A stage whose predecessors are finished runs safely and, when it succeeds, has had its effect. */
  lemma RunStageIsQuiet(s: Sys, k: nat)
    requires Inv(s) && Uninstalling(s.cr) && k < STAGES
    requires forall i: nat :: i < k ==> Fin(UninstallTasks(s.cr), i)
    ensures Quiet(s, RunStage(s, k).s)
    ensures Plain(RunStage(s, k).flow)
    ensures RunStage(s, k).flow == OK ==> StageEffect(RunStage(s, k).s.w, k)
  {
    var mine := UninstallTasks(s.cr);
    if k == 0 { RemoveWorkloadsIsQuiet(s); }
    else if k == 1 { AwaitDrainIsQuiet(s); }
    else if k == 2 {
      assert Fin(mine, 1) && StageEffect(s.w, 1);
      assert CLEAR_DB_JOB[0] == 'n' && INIT_DB_JOB[0] == 'm';
      StartJobIsQuiet(s, CLEAR_DB_JOB);
    }
    else if k == 3 { AwaitClearDbIsQuiet(s); }
    else if k == 4 {
      assert Fin(mine, 3) && StageEffect(s.w, 3);
      RemoveMongoIsQuiet(s);
    }
    else if k == 5 { UninstallClusterNodesIsQuiet(s); }
    else if k == 6 { DeletePvcsIsQuiet(s); }
    else { RemoveServiceAccountIsQuiet(s); }
  }
}
