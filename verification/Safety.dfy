/** What holds at every moment of every run, however often a cycle dies or a write gets lost. */
module Safety {
  import opened Basics
  import opened Kube
  import opened Jobs
  import opened Tasks
  import opened Management
  import opened Uninstall

  // ---- the persisted progress ------------------------------------------------------------------

  predicate Fin(tasks: TaskMap, k: nat)
  {
    Finished(tasks, StageName(k))
  }

  predicate Begun(tasks: TaskMap, k: nat)
  {
    StageName(k) in tasks
  }

  /** Stages begin in order: whatever has begun has every earlier stage finished, so the finished stages
      are a prefix and at most the next one is merely started; completion means all eight. */
  ghost predicate Prefix(tasks: TaskMap)
  {
    && (forall i: nat, j: nat :: i < j < STAGES && Begun(tasks, j) ==> Fin(tasks, i))
    && (ACTION_COMPLETE in tasks ==> forall i: nat :: i < STAGES ==> Fin(tasks, i))
    && (forall t :: t in tasks ==> tasks[t] == TASK_STARTED || tasks[t] == TASK_FINISHED)
  }

  ghost predicate NoLessThan(tasks: TaskMap, more: TaskMap)
  {
    forall k: nat :: k < STAGES && Fin(tasks, k) ==> Fin(more, k)
  }

  ghost predicate NothingFinished(tasks: TaskMap)
  {
    forall k: nat :: k < STAGES ==> !Fin(tasks, k)
  }

  function UninstallTasks(cr: Cr): TaskMap
  {
    TasksOf(cr.status, UNINSTALL)
  }

  // ---- the log ---------------------------------------------------------------------------------

  /** A listing of client, target, mcs-agent and csi-node-driver pods came back empty. */
  predicate DrainSeen(e: Entry)
  {
    e.uninstalling && e.request.ListWorkloadPods? && e.reply.PodsAre? && e.reply.pods == []
  }

  /** The clear-DB job was created, or there already was one. */
  predicate ClearDbAsked(e: Entry)
  {
    e.uninstalling && e.request == CreateJob(CLEAR_DB_JOB) && (e.reply == Done || e.reply == Fails(AlreadyExists))
  }

  /** A look at the clear-DB job that did not find it still running. */
  predicate ClearDbSettled(e: Entry)
  {
    && e.uninstalling && e.request == GetJob(CLEAR_DB_JOB) && !e.reply.Silence?
    && (e.reply.JobIs? ==>
          var j := e.reply.job;
          j.failed > 0 || j.succeeded == j.completions || (j.active == 0 && j.failedCondition))
  }

  ghost predicate SawDrain(log: seq<Entry>)
  {
    exists e :: e in log && DrainSeen(e)
  }

  ghost predicate AskedClearDb(log: seq<Entry>)
  {
    exists e :: e in log && ClearDbAsked(e)
  }

  ghost predicate SawClearDbSettled(log: seq<Entry>)
  {
    exists e :: e in log && ClearDbSettled(e)
  }

  /** The request stores an object of one of the component directories, or starts the init-DB job. */
  predicate Builds(res: Resources, q: Request)
  {
    ((q.CreateObject? || q.UpdateObject?) && Managed(res, q.manifest.key)) || q == CreateJob(INIT_DB_JOB)
  }

  /** What an uninstalling operator may do, given what it has seen before. */
  ghost predicate InTurn(res: Resources, before: seq<Entry>, e: Entry)
  {
    e.uninstalling ==>
      && (e.request == CreateJob(CLEAR_DB_JOB) ==> SawDrain(before))
      && (e.request.DeleteObject? && Lists(res.mongo, e.request.key) ==> SawClearDbSettled(before))
      && !Builds(res, e.request)
  }

  ghost predicate InOrder(res: Resources, log: seq<Entry>)
  {
    forall i :: 0 <= i < |log| ==> InTurn(res, log[..i], log[i])
  }

  // ---- the cluster facts behind the progress ---------------------------------------------------

  ghost predicate Absent(w: World, files: seq<YamlFile>)
  {
    forall k :: Lists(files, k) ==> k !in w.objs
  }

  ghost predicate WorkloadsAbsent(w: World)
  {
    Absent(w, w.res.core) && Absent(w, w.res.csi) && Absent(w, w.res.mgmt)
  }

  /** The lasting effect of stage k. */
  ghost predicate StageEffect(w: World, k: nat)
  {
    && (k == 0 ==> WorkloadsAbsent(w))
    && (k == 1 ==> WorkloadPods(w.pods) == [] && SawDrain(w.log))
    && (k == 2 ==> AskedClearDb(w.log))
    && (k == 3 ==> SawClearDbSettled(w.log))
    && (k == 4 ==> Absent(w, w.res.mongo))
  }

  ghost predicate Effects(w: World, tasks: TaskMap)
  {
    forall k: nat :: k < STAGES && Fin(tasks, k) ==> StageEffect(w, k)
  }

  /** Progress that is in order and true. */
  ghost predicate Honest(w: World, tasks: TaskMap)
  {
    Prefix(tasks) && Effects(w, tasks)
  }

  // ---- the invariant ---------------------------------------------------------------------------

  /** The custom resource as stored. */
  ghost predicate StoredInv(w: World)
  {
    w.cr.Some? ==>
      var c := w.cr.value;
      && c.version <= w.revision
      && (c.deleting ==> c.finalizers != [])
      && (!c.deleting ==> UninstallTasks(c) == map[])
      && (Uninstalling(c) ==> Honest(w, UninstallTasks(c)))
  }

  /** The cycle's copy against what is stored. */
  ghost predicate CopyInv(s: Sys)
  {
    var mine := UninstallTasks(s.cr);
    && s.cr.version <= s.w.revision
    && (!s.cr.deleting ==> mine == map[])
    && (Uninstalling(s.cr) ==> Honest(s.w, mine))
    && (s.w.cr.Some? ==>
          var c := s.w.cr.value;
          && (c.version == s.cr.version ==> c.deleting == s.cr.deleting)
          && (s.cr.deleting ==> c.deleting)
          && (Uninstalling(c) ==> Honest(s.w, mine) && NoLessThan(UninstallTasks(c), mine)))
  }

  ghost predicate Inv(s: Sys)
  {
    Shipped(s.w.res) && InOrder(s.w.res, s.w.log) && StoredInv(s.w) && CopyInv(s)
  }

  // ---- how the world moves ---------------------------------------------------------------------

  /** Nothing un-happens to the custom resource, and stored progress only grows while the finalizer is held. */
  ghost predicate CrForward(w: World, v: World)
  {
    v.cr.Some? ==>
      && w.cr.Some?
      && (w.cr.value.deleting ==> v.cr.value.deleting && (Ours(v.cr.value) ==> Ours(w.cr.value)))
      && (Uninstalling(w.cr.value) && Ours(v.cr.value) ==>
            NoLessThan(UninstallTasks(w.cr.value), UninstallTasks(v.cr.value)))
  }

  ghost predicate Forward(w: World, v: World)
  {
    v.res == w.res && w.log <= v.log && w.revision <= v.revision && CrForward(w, v)
  }

  /** Beyond that, no object of the operator's directories comes (back) and none is written. */
  ghost predicate Calmer(w: World, v: World)
  {
    && Forward(w, v)
    && (forall k :: Managed(w.res, k) && k in v.objs ==> k in w.objs)
    && (WorkloadsAbsent(w) && WorkloadPods(w.pods) == [] ==> WorkloadPods(v.pods) == [])
    && (forall i :: |w.log| <= i < |v.log| ==> !Builds(w.res, v.log[i].request))
  }

  lemma CalmerTransitive(u: World, v: World, w: World)
    requires Calmer(u, v) && Calmer(v, w)
    ensures Calmer(u, w)
  {
  }

  lemma HonestStays(w: World, v: World, tasks: TaskMap)
    requires Calmer(w, v) && Honest(w, tasks)
    ensures Honest(v, tasks)
  {
    forall k: nat | k < STAGES && Fin(tasks, k) ensures StageEffect(v, k) {
      assert StageEffect(w, k);
      if k == 1 {
        assert Begun(tasks, 1);
        assert Fin(tasks, 0);
        assert StageEffect(w, 0);
      }
    }
  }

  lemma NoTasksAreHonest(w: World)
    ensures Honest(w, map[])
  {
  }

  // ---- everybody else's moves ------------------------------------------------------------------

  lemma {:induction false} NoPodsAdded(pods: seq<Pod>, name: string)
    requires WorkloadPods(pods) == []
    ensures WorkloadPods(PodsExcept(pods, name)) == []
  {
    if pods != [] {
      var rest := PodsExcept(pods[1..], name);
      NoPodsAdded(pods[1..], name);
      assert ([pods[0]] + rest)[1..] == rest && [] + rest == rest;
    }
  }

  lemma {:induction false} OnePodAdded(pods: seq<Pod>, p: Pod)
    requires WorkloadPods(pods) == [] && !IsWorkloadComponent(p.component)
    ensures WorkloadPods(pods + [p]) == []
  {
    if pods == [] {
      assert ([] + [p])[1..] == [];
    } else {
      assert (pods + [p])[1..] == pods[1..] + [p];
      OnePodAdded(pods[1..], p);
    }
  }

  lemma EnvStepCalm(w: World, e: EnvStep)
    requires Shipped(w.res) && StoredInv(w)
    ensures Calmer(w, EnvStepped(w, e))
  {
    var v := EnvStepped(w, e);
    match e
    case PodSpawned(p) =>
      if Enabled(w, e) && WorkloadsAbsent(w) && WorkloadPods(w.pods) == [] {
        assert IsWorkloadComponent(p.component) ==> Workload(w.res, DaemonSetOf(p.component));
        OnePodAdded(w.pods, p);
      }
    case PodGone(n) =>
      if WorkloadPods(w.pods) == [] { NoPodsAdded(w.pods, n); }
    case _ =>
  }

  lemma EnvStepKeeps(s: Sys, e: EnvStep)
    requires Inv(s)
    ensures Inv(s.(w := EnvStepped(s.w, e)))
    ensures Calmer(s.w, EnvStepped(s.w, e))
  {
    hide Managed, Effects, Prefix;
    var v := EnvStepped(s.w, e);
    EnvStepCalm(s.w, e);
    var mine := UninstallTasks(s.cr);
    if Honest(s.w, mine) { HonestStays(s.w, v, mine); }
    if s.w.cr.Some? {
      var theirs := UninstallTasks(s.w.cr.value);
      if Honest(s.w, theirs) { HonestStays(s.w, v, theirs); }
    }
    NoTasksAreHonest(v);
  }

  // ---- the operator's requests -----------------------------------------------------------------

  /** A cycle that may create and update the components' objects: not one that is uninstalling, nor one
      that knows of finished stages the stored resource could still hold. */
  ghost predicate MayDeploy(s: Sys)
  {
    && !Uninstalling(s.cr)
    && (s.w.cr.Some? && Uninstalling(s.w.cr.value) ==> NothingFinished(UninstallTasks(s.cr)))
  }

  /** The requests that keep the invariant. */
  ghost predicate Allowed(s: Sys, q: Request)
  {
    match q
    case UpdateStatus(c) => c.version == s.cr.version && UninstallTasks(c) == UninstallTasks(s.cr)
    case UpdateCr(c) => c.version == s.cr.version && c.deleting == s.cr.deleting && !Uninstalling(c)
    case CreateObject(m) => Managed(s.w.res, m.key) ==> MayDeploy(s)
    case UpdateObject(m, _) => Managed(s.w.res, m.key) ==> MayDeploy(s)
    case DeleteObject(k) => Uninstalling(s.cr) && Lists(s.w.res.mongo, k) ==> SawClearDbSettled(s.w.log)
    case CreateJob(n) =>
      (Uninstalling(s.cr) && n == CLEAR_DB_JOB ==> SawDrain(s.w.log)) && (n == INIT_DB_JOB ==> MayDeploy(s))
    case _ => true
  }

  lemma {:induction false} EnvRunKeeps(s: Sys, steps: seq<EnvStep>, q: Request)
    requires Inv(s) && Allowed(s, q)
    ensures var v := EnvRun(s.w, steps);
      && Inv(s.(w := v)) && Calmer(s.w, v) && Allowed(s.(w := v), q)
      && (MayDeploy(s) ==> MayDeploy(s.(w := v)))
    decreases |steps|
  {
    if steps != [] {
      var v := EnvStepped(s.w, steps[0]);
      EnvStepKeeps(s, steps[0]);
      EnvRunKeeps(s.(w := v), steps[1..], q);
      CalmerTransitive(s.w, v, EnvRun(s.w, steps));
    }
  }

  lemma EffectIsCalm(s: Sys, q: Request)
    requires Inv(s) && Allowed(s, q) && !Builds(s.w.res, q)
    ensures Calmer(s.w, Effect(s.w, q))
  {
    match q
    case DeletePod(n) =>
      if WorkloadPods(s.w.pods) == [] { NoPodsAdded(s.w.pods, n); }
    case _ =>
  }

  lemma EffectKeeps(s: Sys, q: Request)
    requires Inv(s) && Allowed(s, q)
    ensures Inv(s.(w := Effect(s.w, q))) && Forward(s.w, Effect(s.w, q))
    ensures MayDeploy(s) ==> MayDeploy(s.(w := Effect(s.w, q)))
  {
    var v := Effect(s.w, q);
    var mine := UninstallTasks(s.cr);
    if Builds(s.w.res, q) {
      assert s.w.cr.Some? && Uninstalling(s.w.cr.value) ==> NothingFinished(UninstallTasks(s.w.cr.value));
    } else {
      EffectIsCalm(s, q);
      if Honest(s.w, mine) { HonestStays(s.w, v, mine); }
      if s.w.cr.Some? {
        var theirs := UninstallTasks(s.w.cr.value);
        if Honest(s.w, theirs) { HonestStays(s.w, v, theirs); }
      }
    }
  }

  lemma NotedKeeps(s: Sys, e: Entry)
    requires Inv(s) && InTurn(s.w.res, s.w.log, e)
    ensures Inv(s.(w := Noted(s.w, e))) && Forward(s.w, Noted(s.w, e))
    ensures !Builds(s.w.res, e.request) ==> Calmer(s.w, Noted(s.w, e))
    ensures MayDeploy(s) ==> MayDeploy(s.(w := Noted(s.w, e)))
  {
    var v := Noted(s.w, e);
    forall i | 0 <= i < |v.log| ensures InTurn(v.res, v.log[..i], v.log[i]) {
      if i < |s.w.log| {
        assert v.log[..i] == s.w.log[..i];
      } else {
        assert v.log[..i] == s.w.log;
      }
    }
    assert forall tasks: TaskMap :: Honest(s.w, tasks) ==> Honest(v, tasks) by {
      forall tasks: TaskMap | Honest(s.w, tasks) ensures Honest(v, tasks) {
        forall k: nat | k < STAGES && Fin(tasks, k) ensures StageEffect(v, k) {
          assert StageEffect(s.w, k);
        }
      }
    }
  }

  lemma LandingKeeps(s: Sys, q: Request, reply: Reply, lands: bool)
    requires Inv(s) && Allowed(s, q)
    ensures var v := Noted(if lands then Effect(s.w, q) else s.w, Entry(q, reply, lands, Uninstalling(s.cr)));
      && Inv(s.(w := v)) && Forward(s.w, v)
      && (!Builds(s.w.res, q) ==> Calmer(s.w, v))
      && (MayDeploy(s) ==> MayDeploy(s.(w := v)))
  {
    var landed := if lands then s.(w := Effect(s.w, q)) else s;
    var e := Entry(q, reply, lands, Uninstalling(s.cr));
    EffectKeeps(s, q);
    if !Builds(s.w.res, q) { EffectIsCalm(s, q); }
    assert landed.w.log == s.w.log;
    assert Forward(s.w, landed.w);
    NotedKeeps(landed, e);
  }

  /** What is left when a request is over. */
  function Aftermath(s: Sys, q: Request, v: Verdict): World
  {
    var reply := if v.Answered? then Answer(s.w, q) else if v.Died? then Silence else Fails(ErrorOf(q, v));
    Noted(if Landed(v) then Effect(s.w, q) else s.w, Entry(q, reply, Landed(v), Uninstalling(s.cr)))
  }

  lemma TickKeeps(s: Sys, between: Sys, q: Request, v: Verdict, t: Sys)
    requires Inv(between) && Allowed(between, q) && Calmer(s.w, between.w)
    requires t.w == Aftermath(between, q, v) && t.cr == between.cr == s.cr
    ensures Inv(t) && Forward(s.w, t.w)
    ensures !Builds(s.w.res, q) ==> Calmer(s.w, t.w)
    ensures MayDeploy(between) ==> MayDeploy(t)
  {
    var reply := if v.Answered? then Answer(between.w, q) else if v.Died? then Silence else Fails(ErrorOf(q, v));
    LandingKeeps(between, q, reply, Landed(v));
    if !Builds(s.w.res, q) { CalmerTransitive(s.w, between.w, t.w); }
  }

  /** One request, whatever happens around it and whether or not it takes effect. */
  lemma CallKeeps(s: Sys, q: Request)
    requires Inv(s) && Allowed(s, q)
    ensures var t := Call(s, q).s;
      && Inv(t) && t.cr == s.cr && Forward(s.w, t.w)
      && (!Builds(s.w.res, q) ==> Calmer(s.w, t.w))
      && (MayDeploy(s) ==> MayDeploy(t))
  {
    if s.ticks != [] {
      var between := s.(w := EnvRun(s.w, s.ticks[0].steps));
      EnvRunKeeps(s, s.ticks[0].steps, q);
      TickKeeps(s, between, q, s.ticks[0].verdict, Call(s, q).s);
    }
  }
}
