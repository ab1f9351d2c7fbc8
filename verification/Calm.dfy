/** What the operator's functions do when every request is answered while, between the requests, pods go, jobs end and
    time passes. */
module Calm {
  import opened Basics
  import opened Strings
  import opened Kube
  import opened Objects
  import opened Jobs
  import opened StatusUpdater
  import opened Uninstall
  import opened Finalizer
  import opened Reconciler
  import Protocol

  /** Moves that only bring the end of the uninstall nearer. */
  predicate Mild(e: EnvStep)
  {
    match e
    case ClockTicks(_) => true
    case PodGone(_) => true
    case JobMoves(_, status) => StateOf(status) == Succeeded
    case DbBecomes(_) => true
    case _ => false
  }

  predicate AllMild(steps: seq<EnvStep>)
  {
    forall j :: 0 <= j < |steps| ==> Mild(steps[j])
  }

  predicate CalmTicks(ticks: seq<Tick>)
  {
    forall i :: 0 <= i < |ticks| ==> ticks[i].verdict == Answered && AllMild(ticks[i].steps)
  }

  /** The names of the workload pods. */
  function PodNames(pods: seq<Pod>): multiset<string>
    decreases |pods|
  {
    if pods == [] then multiset{}
    else (if IsWorkloadComponent(pods[0].component) then multiset{pods[0].name} else multiset{}) + PodNames(pods[1..])
  }

  lemma {:induction false} FewerPods(pods: seq<Pod>, name: string)
    ensures PodNames(PodsExcept(pods, name)) <= PodNames(pods)
    decreases |pods|
  {
    if pods != [] {
      var rest := PodsExcept(pods[1..], name);
      FewerPods(pods[1..], name);
      assert ([pods[0]] + rest)[1..] == rest && [] + rest == rest;
    }
  }

  /** From w to v pods may have gone and jobs succeeded. */
  ghost predicate Wanes(w: World, v: World)
  {
    && PodNames(v.pods) <= PodNames(w.pods) && v.jobs.Keys == w.jobs.Keys
    && forall j :: j in w.jobs ==> v.jobs[j] == w.jobs[j] || StateOf(v.jobs[j]) == Succeeded
  }

  lemma WanesOn(u: World, v: World, w: World)
    requires Wanes(u, v) && Wanes(v, w)
    ensures Wanes(u, w)
  {
    hide StateOf, PodNames;
  }

  lemma OneMildMove(w: World, e: EnvStep)
    requires Mild(e)
    ensures var v := EnvStepped(w, e); Wanes(w, v) && v == w.(now := v.now, pods := v.pods, jobs := v.jobs, db := v.db)
  {
    hide StateOf;
    if e.PodGone? { FewerPods(w.pods, e.pod); }
  }

  lemma {:induction false} MildMoves(w: World, steps: seq<EnvStep>)
    requires AllMild(steps)
    ensures var v := EnvRun(w, steps); Wanes(w, v) && v == w.(now := v.now, pods := v.pods, jobs := v.jobs, db := v.db)
    decreases |steps|
  {
    hide Wanes, EnvStepped, Mild;
    if steps == [] {
      SameWanes(w);
    } else {
      var v := EnvStepped(w, steps[0]);
      assert Mild(steps[0]);
      OneMildMove(w, steps[0]);
      MildMoves(v, steps[1..]);
      WanesOn(w, v, EnvRun(v, steps[1..]));
    }
  }

  lemma SameWanes(w: World)
    ensures Wanes(w, w)
  {
  }

  /** The world the next request meets. */
  function Met(s: Sys): World
  {
    if s.ticks == [] then s.w else EnvRun(s.w, s.ticks[0].steps)
  }

  lemma MetFacts(s: Sys)
    requires CalmTicks(s.ticks)
    ensures var u := Met(s); Wanes(s.w, u) && u == s.w.(now := u.now, pods := u.pods, jobs := u.jobs, db := u.db)
  {
    hide Wanes;
    if s.ticks != [] { MildMoves(s.w, s.ticks[0].steps); } else { SameWanes(s.w); }
  }

  const SCC := "SecurityContextConstraints"

  /** Every request is answered, and the API server lacks at most the one kind the operator provides for. */
  predicate Peaceful(s: Sys)
  {
    CalmTicks(s.ticks) && s.w.res.unknownKinds <= {SCC}
  }

  /** What a calm stretch leaves alone, and what it may do to the jobs: start new ones, take some away. */
  ghost predicate Steady(s: Sys, t: Sys)
  {
    && CalmTicks(t.ticks) && t.order == s.order
    && t.w.res == s.w.res && t.w.nodes == s.w.nodes
    && t.w.attachments == s.w.attachments && t.w.volumes == s.w.volumes
    && forall j :: j in t.w.jobs ==>
         t.w.jobs[j] == NEW_JOB || StateOf(t.w.jobs[j]) == Succeeded || (j in s.w.jobs && t.w.jobs[j] == s.w.jobs[j])
  }

  /** Steady, and the custom resource, stored and in hand, is not written. */
  ghost predicate Still(s: Sys, t: Sys)
  {
    Steady(s, t) && t.w.cr == s.w.cr && t.cr == s.cr
  }

  lemma CalmCall(s: Sys, q: Request)
    requires CalmTicks(s.ticks) && s.ticks != []
    ensures var u := Met(s);
      Call(s, q) ==
        Ans(s.(w := Noted(Effect(u, q), Entry(q, Answer(u, q), true, Uninstalling(s.cr))), ticks := s.ticks[1..]), Answer(u, q))
    ensures CalmTicks(s.ticks[1..])
  {
    assert s.ticks[0].verdict == Answered;
  }

  lemma StillCall(s: Sys, q: Request)
    requires Peaceful(s) && !q.UpdateCr? && !q.UpdateStatus?
    ensures var a := Call(s, q);
      && Still(s, a.s) && (a.reply.Silence? || a.reply == Answer(Met(s), q))
      && (!q.CreateJob? && !q.DeleteJob? ==> Wanes(s.w, a.s.w))
  {
    hide EnvRun, PodNames, StateOf;
    MetFacts(s);
    SameWanes(s.w);
    if s.ticks != [] {
      CalmCall(s, q);
      if q.DeletePod? { FewerPods(Met(s).pods, q.name); }
    }
  }

  lemma UntouchedOn(r: Sys, s: Sys, t: Sys)
    requires Untouched(r, s) && Untouched(s, t)
    ensures Untouched(r, t)
  {
    hide StateOf, PodNames;
    WanesOn(r.w, s.w, t.w);
  }

  // ---- objects ---------------------------------------------------------------------------------

  predicate Fine(flow: Flow)
  {
    flow.Killed? || flow == OK
  }

  ghost predicate Untouched(s: Sys, t: Sys)
  {
    Still(s, t) && Wanes(s.w, t.w)
  }

  lemma CalmRemoval(s: Sys, key: Key)
    requires Peaceful(s)
    ensures var r := RemoveObject(s, key); Untouched(s, r.s) && Fine(r.flow)
  {
    hide Call, Met, PodNames, StateOf;
    var found := Call(s, GetObject(key));
    MetFacts(s);
    StillCall(s, GetObject(key));
    MetFacts(found.s);
    StillCall(found.s, DeleteObject(key));
    UntouchedOn(s, found.s, Call(found.s, DeleteObject(key)).s);
    if found.reply.ObjectIs? { FoundIsThere(s, key); }
  }

  lemma FoundIsThere(s: Sys, key: Key)
    requires Peaceful(s) && Call(s, GetObject(key)).reply.ObjectIs?
    ensures key in Call(s, GetObject(key)).s.w.objs
  {
    if s.ticks != [] { CalmCall(s, GetObject(key)); } else { DeadCall(s, GetObject(key)); }
  }

  lemma {:induction false} CalmManifests(s: Sys, component: Component, ms: seq<Manifest>)
    requires Peaceful(s)
    ensures var r := ReconcileManifests(s, component, ms, true, None); Untouched(s, r.s) && Fine(r.flow)
    decreases |ms|
  {
    hide RemoveObject;
    if ms != [] {
      var one := RemoveObject(s, ms[0].key);
      CalmRemoval(s, ms[0].key);
      if one.flow == OK { CalmManifests(one.s, component, ms[1..]); }
    }
  }

  predicate AllReadable(files: seq<YamlFile>)
  {
    forall i :: 0 <= i < |files| ==> files[i].Readable?
  }

  lemma {:induction false} CalmDir(s: Sys, component: Component, files: seq<YamlFile>)
    requires Peaceful(s) && AllReadable(files)
    ensures var r := ReconcileDir(s, component, files, true); Untouched(s, r.s) && Fine(r.flow)
    decreases |files|
  {
    hide ReconcileManifests;
    if files != [] {
      var one := ReconcileFile(s, component, files[0], true);
      CalmManifests(s, component, files[0].manifests);
      if one.flow == OK { CalmDir(one.s, component, files[1..]); }
    }
  }

  lemma CalmWorkloads(s: Sys)
    requires Peaceful(s) && AllReadable(s.w.res.core) && AllReadable(s.w.res.csi) && AllReadable(s.w.res.mgmt)
    ensures var r := RemoveWorkloads(s); Untouched(s, r.s) && Fine(r.flow)
  {
    hide ReconcileDir;
    var res := s.w.res;
    var core := ReconcileDir(s, res.coreComponent, res.core, true).s;
    CalmDir(s, res.coreComponent, res.core);
    var csi := ReconcileDir(core, res.csiComponent, res.csi, true).s;
    CalmDir(core, res.csiComponent, res.csi);
    CalmDir(csi, res.mgmtComponent, res.mgmt);
  }

  lemma {:induction false} CalmClaims(s: Sys, names: seq<string>)
    requires Peaceful(s)
    ensures var r := RemoveClaims(s, names); Untouched(s, r.s) && Fine(r.flow)
    decreases |names|
  {
    hide RemoveObject;
    if names != [] {
      var one := RemoveObject(s, Key(PVC, names[0]));
      CalmRemoval(s, Key(PVC, names[0]));
      if one.flow == OK { CalmClaims(one.s, names[1..]); }
    }
  }

  lemma CalmPvcs(s: Sys)
    requires Peaceful(s)
    ensures var r := DeletePvcs(s); Untouched(s, r.s) && Fine(r.flow)
  {
    hide Call, RemoveClaims;
    var listed := Call(s, ListMarkedPvcs);
    StillCall(s, ListMarkedPvcs);
    if listed.reply.PvcsAre? { CalmClaims(listed.s, listed.reply.names); }
  }

  lemma CalmAccountRemoval(s: Sys)
    requires Peaceful(s)
    ensures var r := RemoveServiceAccount(s); Untouched(s, r.s) && Fine(r.flow)
  {
    hide RemoveObject;
    var account := RemoveObject(s, SERVICE_ACCOUNT.key).s;
    CalmRemoval(s, SERVICE_ACCOUNT.key);
    var role := RemoveObject(account, CLUSTER_ROLE.key).s;
    CalmRemoval(account, CLUSTER_ROLE.key);
    CalmRemoval(role, ROLE_BINDING.key);
  }

  lemma CalmEnsuring(s: Sys, m: Manifest)
    requires Peaceful(s) && m.key.kind != SCC
    ensures var r := EnsureObject(s, None, m); Untouched(s, r.s) && Fine(r.flow)
  {
    hide Call, Met, PodNames, StateOf;
    var found := Call(s, GetObject(m.key));
    MetFacts(s);
    StillCall(s, GetObject(m.key));
    MetFacts(found.s);
    StillCall(found.s, CreateObject(m));
    UntouchedOn(s, found.s, Call(found.s, CreateObject(m)).s);
  }

  lemma CalmAccount(s: Sys)
    requires Peaceful(s)
    ensures var r := EnsureServiceAccount(s); Untouched(s, r.s) && Fine(r.flow)
  {
    hide EnsureObject;
    assert SERVICE_ACCOUNT.key.kind[0] == 'S' && SCC[1] == 'e' && SERVICE_ACCOUNT.key.kind[2] == 'r' && SCC[2] == 'c';
    assert CLUSTER_ROLE.key.kind[0] == 'R' && ROLE_BINDING.key.kind[0] == 'R' && SCC[0] == 'S';
    var account := EnsureObject(s, None, SERVICE_ACCOUNT).s;
    CalmEnsuring(s, SERVICE_ACCOUNT);
    var role := EnsureObject(account, None, CLUSTER_ROLE).s;
    CalmEnsuring(account, CLUSTER_ROLE);
    CalmEnsuring(role, ROLE_BINDING);
  }

  // ---- jobs ------------------------------------------------------------------------------------

  lemma CalmStart(s: Sys, job: string)
    requires Peaceful(s)
    ensures var r := StartJob(s, job);
      Still(s, r.s) && Grows(s.w, r.s.w) && Fine(r.flow) && (r.flow == OK ==> job in r.s.w.jobs)
  {
    hide EnvRun, PodNames;
    MetFacts(s);
    if s.ticks != [] { CalmCall(s, CreateJob(job)); } else { DeadCall(s, CreateJob(job)); }
  }

  /** As Wanes, and new jobs may have been posted. */
  ghost predicate Grows(w: World, v: World)
  {
    && PodNames(v.pods) <= PodNames(w.pods) && w.jobs.Keys <= v.jobs.Keys
    && forall j :: j in w.jobs ==> v.jobs[j] == w.jobs[j] || StateOf(v.jobs[j]) == Succeeded
  }

  lemma GrowsOn(u: World, v: World, w: World)
    requires Grows(u, v) && Grows(v, w)
    ensures Grows(u, w)
  {
    hide StateOf, PodNames;
  }

  /** Waiting reports the job's state: a missing job is an error, a busy one a wait. */
  lemma CalmWait(s: Sys, job: string)
    requires Peaceful(s)
    ensures var r := WaitForJob(s, job);
      && Untouched(s, r.s)
      && (r.flow.Killed? || r.flow ==
            if job !in r.s.w.jobs then Fail(NotFound)
            else match StateOf(r.s.w.jobs[job])
                 case Busy => Return(Requeue(1), None)
                 case Succeeded => OK
                 case Failing => Fail(JobFailed))
  {
    hide StateOf, EnvRun, PodNames;
    MetFacts(s);
    if s.ticks != [] { CalmCall(s, GetJob(job)); } else { DeadCall(s, GetJob(job)); }
  }

  lemma {:induction false} CalmPodRemoval(s: Sys, pods: seq<Pod>)
    requires Peaceful(s)
    ensures var r := DeletePods(s, pods); Untouched(s, r.s) && Fine(r.flow)
    decreases |pods|
  {
    hide Call, PodNames, StateOf;
    SameWanes(s.w);
    if pods != [] {
      var one := Call(s, DeletePod(pods[0].name)).s;
      StillCall(s, DeletePod(pods[0].name));
      CalmPodRemoval(one, pods[1..]);
      UntouchedOn(s, one, DeletePods(one, pods[1..]).s);
    }
  }

  lemma CalmJobRemoval(s: Sys, job: string)
    requires Peaceful(s)
    ensures var r := RemoveJob(s, job); Still(s, r.s) && Fine(r.flow)
  {
    hide Call;
    var gone := Call(s, DeleteJob(job)).s;
    StillCall(s, DeleteJob(job));
    var listed := Call(gone, ListJobPods(job));
    StillCall(gone, ListJobPods(job));
    if listed.reply.PodsAre? {
      CalmPodRemoval(listed.s, listed.reply.pods);
    }
  }

  lemma {:induction false} CalmRemovals(s: Sys, nodes: seq<string>)
    requires Peaceful(s)
    ensures var r := DeleteUninstallJobs(s, nodes); Still(s, r.s) && Fine(r.flow)
    decreases |nodes|
  {
    hide RemoveJob;
    if nodes != [] {
      var one := RemoveJob(s, UninstallJob(nodes[0]));
      CalmJobRemoval(s, UninstallJob(nodes[0]));
      if one.flow == OK {
        CalmRemovals(one.s, nodes[1..]);
      }
    }
  }

  lemma {:induction false} CalmStarts(s: Sys, nodes: seq<string>)
    requires Peaceful(s)
    ensures var r := StartUninstallJobs(s, nodes);
      && Still(s, r.s) && Grows(s.w, r.s.w) && Fine(r.flow)
      && (r.flow == OK ==> forall n :: n in nodes ==> UninstallJob(n) in r.s.w.jobs)
    decreases |nodes|
  {
    hide StartJob, StateOf, PodNames;
    if nodes != [] {
      var one := StartJob(s, UninstallJob(nodes[0]));
      CalmStart(s, UninstallJob(nodes[0]));
      if one.flow == OK {
        CalmStarts(one.s, nodes[1..]);
        GrowsOn(s.w, one.s.w, StartUninstallJobs(one.s, nodes[1..]).s.w);
      }
    }
  }

  ghost predicate NoneFailing(w: World, nodes: set<string>)
  {
    forall n :: n in nodes && UninstallJob(n) in w.jobs ==> StateOf(w.jobs[UninstallJob(n)]) != Failing
  }

  predicate IsDone(w: World, job: string)
  {
    job in w.jobs && StateOf(w.jobs[job]) == Succeeded
  }

  /** Waiting for the jobs ends well exactly when all are done. */
  lemma {:induction false} CalmWaits(s: Sys, nodes: seq<string>)
    requires Peaceful(s) && forall n :: n in nodes ==> UninstallJob(n) in s.w.jobs
    requires NoneFailing(s.w, Names(nodes))
    ensures var r := AwaitUninstallJobs(s, nodes);
      && Untouched(s, r.s)
      && (r.flow.Killed? || r.flow == OK ||
            (r.flow == Return(Requeue(1), None) && exists n :: n in nodes && !IsDone(s.w, UninstallJob(n))))
      && (r.flow == OK ==> forall n :: n in nodes ==> IsDone(r.s.w, UninstallJob(n)))
    decreases |nodes|
  {
    hide WaitForJob, StateOf, PodNames;
    SameWanes(s.w);
    if nodes != [] {
      var one := WaitForJob(s, UninstallJob(nodes[0]));
      CalmWait(s, UninstallJob(nodes[0]));
      assert nodes[0] in Names(nodes) && nodes == [nodes[0]] + nodes[1..];
      if one.flow == OK {
        CalmWaits(one.s, nodes[1..]);
        UntouchedOn(s, one.s, AwaitUninstallJobs(one.s, nodes[1..]).s);
      }
    }
  }

  // ---- nodes -----------------------------------------------------------------------------------

  function ClusterNames(w: World): set<string>
  {
    Names(Labelled(w.nodes, CLIENT_LABEL)) + Names(Labelled(w.nodes, TARGET_LABEL))
  }

  lemma CalmLabel(s: Sys, key: string)
    requires Peaceful(s)
    ensures var r := NodesWithLabel(s, key);
      Untouched(s, r.s) && Fine(r.flow) && (r.flow == OK ==> r.nodes == Labelled(s.w.nodes, key))
  {
    hide Call, Wanes, Met;
    MetFacts(s);
    StillCall(s, ListNodes(key));
  }

  lemma CalmNodes(s: Sys)
    requires Peaceful(s)
    ensures var r := ClusterNodes(s); Untouched(s, r.s) && Fine(r.flow) && (r.flow == OK ==> r.nodes == ClusterNames(s.w))
  {
    hide NodesWithLabel;
    CalmLabel(s, CLIENT_LABEL);
    CalmLabel(NodesWithLabel(s, CLIENT_LABEL).s, TARGET_LABEL);
  }

  // ---- the custom resource ---------------------------------------------------------------------

  /** The copy is current: a write with it will be accepted. */
  predicate Current(s: Sys)
  {
    s.w.cr.Some? && s.w.cr.value.version == s.cr.version
  }

  /** Nothing but the custom resource was written. */
  ghost predicate OnlyCr(s: Sys, t: Sys)
  {
    && CalmTicks(t.ticks) && t.order == s.order && Wanes(s.w, t.w)
    && t.w == s.w.(cr := t.w.cr, revision := t.w.revision, log := t.w.log, now := t.w.now, pods := t.w.pods, jobs := t.w.jobs,
                   db := t.w.db)
  }

  lemma CalmStatusCall(s: Sys)
    requires Peaceful(s) && Current(s) && s.ticks != [] && (s.cr.deleting ==> s.cr.finalizers != [])
    requires s.w.cr.value == s.cr.(status := s.w.cr.value.status)
    ensures var a := Call(s, UpdateStatus(s.cr));
      && a.reply == CrIs(s.cr.(version := s.w.revision + 1)) && OnlyCr(s, a.s)
      && a.s.w.cr == Some(s.cr.(version := s.w.revision + 1)) && a.s.cr == s.cr
  {
    hide EnvRun, PodNames, StateOf;
    MetFacts(s);
    CalmCall(s, UpdateStatus(s.cr));
  }

  /** The copy and the stored resource agree but for the status, which the copy has moved on. */
  predicate Ahead(s: Sys)
  {
    s.w.cr.Some? && s.w.cr.value == s.cr.(status := s.w.cr.value.status) && (s.cr.deleting ==> s.cr.finalizers != [])
  }

  lemma CalmPush(s: Sys)
    requires Peaceful(s) && Ahead(s)
    ensures var r := PushStatus(s);
      && Fine(r.flow)
      && (r.flow == OK ==> OnlyCr(s, r.s) && r.s.w.cr == Some(r.s.cr) && r.s.cr == s.cr.(version := r.s.cr.version))
  {
    hide Call;
    assert WithStatus(s, s.cr.status) == s;
    if s.ticks != [] { CalmStatusCall(s); } else { DeadCall(s, UpdateStatus(s.cr)); }
  }

  lemma DeadCall(s: Sys, q: Request)
    requires s.ticks == []
    ensures Call(s, q) == Ans(s, Silence)
  {
  }

  lemma CalmNote(s: Sys, result: Result)
    requires Peaceful(s) && Ahead(s)
    ensures var r := NoteProgress(s, result);
      && (r.flow.Killed? || r.flow == Return(result, None))
      && (r.flow.Return? ==> OnlyCr(s, r.s) && r.s.w.cr == Some(r.s.cr) && r.s.cr == s.cr.(version := r.s.cr.version))
  {
    hide Call;
    if s.ticks != [] { CalmStatusCall(s); } else { DeadCall(s, UpdateStatus(s.cr)); }
  }

  /** Dropping the finalizer from a current copy releases the stored resource. */
  lemma CalmRelease(s: Sys)
    requires Peaceful(s) && Current(s) && s.w.cr.value.deleting
    ensures var r := ReleaseFinalizer(s); Fine(r.flow) && (r.flow == OK ==> Gone(r.s.w))
  {
    var t := WithFinalizers(s, RemoveString(s.cr.finalizers, CLUSTER_FINALIZER));
    Protocol.RemovedStringIsGone(s.cr.finalizers, CLUSTER_FINALIZER);
    MetFacts(t);
    if s.ticks != [] { CalmCall(t, UpdateCr(t.cr)); } else { DeadCall(t, UpdateCr(t.cr)); }
  }

  /** The resource is gone, or only other finalizers still hold it. */
  predicate Gone(w: World)
  {
    w.cr.Some? ==> w.cr.value.deleting && !Ours(w.cr.value)
  }

  /** No volume of ours is to be seen, or the override is set; and every attachment names its volume. */
  predicate Unblocked(w: World, spec: Spec)
  {
    && (forall i :: 0 <= i < |w.attachments| ==> w.attachments[i].volume.Some?)
    && (spec.ignoreVolumeAttachmentOnDelete || NoneOfOurs(w))
  }

  predicate NoneOfOurs(w: World)
  {
    && (forall i :: 0 <= i < |w.attachments| ==> !OurAttachment(w.attachments[i]))
    && (forall i :: 0 <= i < |w.volumes| ==> !OurVolume(w.volumes[i]))
  }

  lemma CalmGate(s: Sys)
    requires Peaceful(s) && Unblocked(s.w, s.cr.spec)
    ensures var r := AllowedToDelete(s); Untouched(s, r.s) && Fine(r.flow)
  {
    hide Call, Wanes, Met;
    var first := VolumeCheck(s, ListAttachments);
    MetFacts(s);
    StillCall(s, ListAttachments);
    MetFacts(first.s);
    StillCall(first.s, ListVolumes);
    WanesOn(s.w, first.s.w, VolumeCheck(first.s, ListVolumes).s.w);
  }
}
