/** Statements about every run: any number of reconcile cycles, each cut short anywhere or not at all,
    with any moves of the rest of the cluster in between. */
module Runs {
  import opened Basics
  import opened Strings
  import opened Kube
  import opened Tasks
  import opened Uninstall
  import opened Finalizer
  import opened Reconciler
  import opened Safety
  import opened StageSafety
  import opened Protocol
  import opened CycleSafety

  /** One start of the reconcile function: what will happen to its requests, and its map order. */
  datatype Cycle = Cycle(ticks: seq<Tick>, order: set<string> -> seq<string>)

  const NO_CR := Cr(
    Spec(CoreConfigMap.CoreSpec("", 0, None, false, "", false, None, ""),
         DeploySpec("", "", "", "", "", 0, "", "", "", None, false, false),
         false, false, false, false, "", false, false, false, false, false, []),
    CrStatus(map[], []), [], false, 0)

  /** Before its first request a cycle has no copy worth mentioning; its first request reads one. */
  function Start(w: World, c: Cycle): Sys
  {
    Sys(w, if w.cr.Some? then w.cr.value else NO_CR, c.ticks, c.order)
  }

  function AfterCycle(w: World, c: Cycle): World
  {
    Reconcile(Start(w, c)).s.w
  }

  function AfterCycles(w: World, cycles: seq<Cycle>): World
    decreases |cycles|
  {
    if cycles == [] then w else AfterCycles(AfterCycle(w, cycles[0]), cycles[1..])
  }

  /** Any cluster in which no uninstall has been recorded yet. */
  ghost predicate Begins(w: World)
  {
    && Shipped(w.res) && w.log == []
    && (w.cr.Some? ==>
          && w.cr.value.version <= w.revision
          && (w.cr.value.deleting ==> w.cr.value.finalizers != [])
          && UninstallTasks(w.cr.value) == map[])
  }

  ghost predicate WorldInv(w: World)
  {
    Shipped(w.res) && InOrder(w.res, w.log) && StoredInv(w)
  }

  lemma StartFits(w: World, c: Cycle)
    requires WorldInv(w)
    ensures Inv(Start(w, c))
  {
    NoTasksAreHonest(w);
  }

  lemma ReconcileKeeps(s: Sys)
    requires Inv(s)
    ensures var r := Reconcile(s); Inv(r.s) && Forward(s.w, r.s.w)
    ensures var got := Call(s, GetCr); got.reply.CrIs? && Uninstalling(got.reply.cr) && !got.reply.cr.spec.skipUninstall ==>
      Calmer(s.w, Reconcile(s).s.w)
  {
    hide StoredInv, InOrder, Shipped, Calmer, Handle, Call;
    var got := Call(s, GetCr);
    QuietCall(s, GetCr);
    CalmerIsForward(s.w, got.s.w);
    if got.reply.CrIs? {
      AnsweredCopy(s, GetCr);
      StoredCopyExists(s);
      AdoptedCopy(got.s, got.reply.cr);
      var t := got.s.(cr := got.reply.cr);
      HandleKeeps(t);
      var r := Handle(t);
      if Calmer(t.w, r.s.w) { CalmerTransitive(s.w, t.w, r.s.w); }
    }
  }

  lemma CycleKeeps(w: World, c: Cycle)
    requires WorldInv(w)
    ensures WorldInv(AfterCycle(w, c)) && Forward(w, AfterCycle(w, c))
  {
    hide Reconcile;
    StartFits(w, c);
    ReconcileKeeps(Start(w, c));
  }

  lemma {:induction false} CyclesKeep(w: World, cycles: seq<Cycle>)
    requires WorldInv(w)
    ensures WorldInv(AfterCycles(w, cycles)) && Forward(w, AfterCycles(w, cycles))
    decreases |cycles|
  {
    hide WorldInv, AfterCycle;
    if cycles != [] {
      var v := AfterCycle(w, cycles[0]);
      CycleKeeps(w, cycles[0]);
      CyclesKeep(v, cycles[1..]);
    }
  }

  lemma BeginningKeeps(w: World)
    requires Begins(w)
    ensures WorldInv(w)
  {
    NoTasksAreHonest(w);
  }

  lemma {:induction false} NoWorkloadPodLeft(pods: seq<Pod>)
    ensures WorkloadPods(pods) == [] <==>
      forall p :: p in pods ==> p.component !in {"client", "target", "mcs-agent", "csi-node-driver"}
  {
    if pods != [] {
      NoWorkloadPodLeft(pods[1..]);
      assert pods == [pods[0]] + pods[1..];
    }
  }

  /** At every moment while the finalizer holds the resource, the recorded progress is in order and true of
      the cluster. A cycle may have died anywhere, with or without its last write taking effect. */
  lemma CrashSafety(w: World, cycles: seq<Cycle>)
    requires Begins(w)
    ensures var v := AfterCycles(w, cycles);
      v.cr.Some? && Uninstalling(v.cr.value) ==>
        var tasks := UninstallTasks(v.cr.value);
        && Prefix(tasks)
        && (Fin(tasks, 0) ==> forall k :: Workload(v.res, k) ==> k !in v.objs)
        && (Fin(tasks, 1) ==> forall p :: p in v.pods ==> p.component !in {"client", "target", "mcs-agent", "csi-node-driver"})
        && (Fin(tasks, 2) ==> exists e :: e in v.log && ClearDbAsked(e))
        && (Fin(tasks, 3) ==> exists e :: e in v.log && ClearDbSettled(e))
        && (Fin(tasks, 4) ==> forall k :: Lists(v.res.mongo, k) ==> k !in v.objs)
  {
    hide AfterCycles;
    var v := AfterCycles(w, cycles);
    BeginningKeeps(w);
    CyclesKeep(w, cycles);
    if v.cr.Some? && Uninstalling(v.cr.value) {
      var tasks := UninstallTasks(v.cr.value);
      NoWorkloadPodLeft(v.pods);
      if Fin(tasks, 0) { assert StageEffect(v, 0); }
      if Fin(tasks, 1) { assert StageEffect(v, 1); }
      if Fin(tasks, 2) { assert StageEffect(v, 2); }
      if Fin(tasks, 3) { assert StageEffect(v, 3); }
      if Fin(tasks, 4) { assert StageEffect(v, 4); }
    }
  }

  /** On every run, replays included: an uninstalling operator asks for the clear-DB job only after a listing
      showed no workload pod, and removes a mongo object only after a look at that job did not find it busy. */
  lemma StageOrder(w: World, cycles: seq<Cycle>, i: nat)
    requires Begins(w) && i < |AfterCycles(w, cycles).log| && AfterCycles(w, cycles).log[i].uninstalling
    ensures var log := AfterCycles(w, cycles).log;
      && (log[i].request == CreateJob(CLEAR_DB_JOB) ==> exists j :: 0 <= j < i && DrainSeen(log[j]))
      && (log[i].request.DeleteObject? && Lists(w.res.mongo, log[i].request.key) ==>
            exists j :: 0 <= j < i && ClearDbSettled(log[j]))
      && !Builds(w.res, log[i].request)
  {
    hide AfterCycles;
    var v := AfterCycles(w, cycles);
    BeginningKeeps(w);
    CyclesKeep(w, cycles);
    assert InTurn(v.res, v.log[..i], v.log[i]);
    if SawDrain(v.log[..i]) {
      var e :| e in v.log[..i] && DrainSeen(e);
      var j :| 0 <= j < i && v.log[j] == e;
    }
    if SawClearDbSettled(v.log[..i]) {
      var e :| e in v.log[..i] && ClearDbSettled(e);
      var j :| 0 <= j < i && v.log[j] == e;
    }
  }

  /** Recorded progress never shrinks while the finalizer is held. */
  lemma ProgressNeverShrinks(w: World, before: seq<Cycle>, more: seq<Cycle>)
    requires Begins(w)
    ensures var u := AfterCycles(w, before); var v := AfterCycles(u, more);
      u.cr.Some? && Uninstalling(u.cr.value) && v.cr.Some? && Uninstalling(v.cr.value) ==>
        NoLessThan(UninstallTasks(u.cr.value), UninstallTasks(v.cr.value))
  {
    hide AfterCycles;
    BeginningKeeps(w);
    CyclesKeep(w, before);
    CyclesKeep(AfterCycles(w, before), more);
  }

  /** A cycle that reads a resource being deleted, with our finalizer and without SkipUninstall, stores no
      object of any component, however it ends; it never even asks to. */
  lemma NoResurrection(w: World, before: seq<Cycle>, c: Cycle)
    requires Begins(w)
    requires var got := Call(Start(AfterCycles(w, before), c), GetCr).reply;
      got.CrIs? && Uninstalling(got.cr) && !got.cr.spec.skipUninstall
    ensures var u := AfterCycles(w, before); var v := AfterCycle(u, c);
      && u.log <= v.log
      && (forall i :: |u.log| <= i < |v.log| ==> !Builds(u.res, v.log[i].request))
      && (forall k :: Managed(u.res, k) && k in v.objs ==> k in u.objs)
  {
    hide AfterCycles, Reconcile, Call;
    var u := AfterCycles(w, before);
    BeginningKeeps(w);
    CyclesKeep(w, before);
    StartFits(u, c);
    ReconcileKeeps(Start(u, c));
  }
}
