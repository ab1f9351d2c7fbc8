/** The uninstall ends: when nothing fails and what it waits for happens, the finalizer goes after finitely
    many cycles. */
module Termination {
  import opened Basics
  import opened Strings
  import opened Kube
  import opened Objects
  import opened Jobs
  import opened Tasks
  import opened StatusUpdater
  import opened Uninstall
  import opened Finalizer
  import opened Reconciler
  import opened Safety
  import opened StageSafety
  import opened Protocol
  import opened CycleSafety
  import opened Runs
  import opened Calm

  // ---- how far it is, and what it waits for ----------------------------------------------------

  /** The first stage from k on that is not finished. */
  function Next(tasks: TaskMap, k: nat): (j: nat)
    ensures k <= j && (k <= STAGES ==> j <= STAGES)
    ensures j < STAGES ==> !Fin(tasks, j)
    ensures forall i: nat :: k <= i < j && i < STAGES ==> Fin(tasks, i)
    decreases STAGES - k
  {
    if k >= STAGES || !Fin(tasks, k) then k else Next(tasks, k + 1)
  }

  function NodeJobs(w: World): set<string>
  {
    set n | n in ClusterNames(w) :: UninstallJob(n)
  }

  function Unfinished(w: World): set<string>
  {
    set j | j in NodeJobs(w) && !IsDone(w, j)
  }

  /** What stage k waits for: workload pods to go, the clear-DB job not to be busy, node jobs to succeed. */
  function Pending(w: World, k: nat): multiset<string>
  {
    if k == 1 then PodNames(w.pods)
    else if k == 3 then
      if CLEAR_DB_JOB in w.jobs && StateOf(w.jobs[CLEAR_DB_JOB]) == Busy then multiset{CLEAR_DB_JOB} else multiset{}
    else if k == 5 then multiset(Unfinished(w))
    else multiset{}
  }

  /** In stage 5 every node has its job. */
  ghost predicate Posted(w: World, k: nat)
  {
    k == 5 ==> forall n :: n in ClusterNames(w) ==> UninstallJob(n) in w.jobs
  }

  /** Nothing that would make a stage fail. */
  ghost predicate Unhindered(w: World)
  {
    && AllReadable(w.res.core) && AllReadable(w.res.csi) && AllReadable(w.res.mgmt) && AllReadable(w.res.mongo)
    && w.res.unknownKinds <= {SCC} && NoneFailing(w, ClusterNames(w))
  }

  lemma UnhinderedStays(s: Sys, t: Sys)
    requires Steady(s, t) && Unhindered(s.w)
    ensures Unhindered(t.w)
  {
  }

  lemma {:induction false} PodsOrNone(pods: seq<Pod>)
    ensures PodNames(pods) == multiset{} <==> WorkloadPods(pods) == []
    decreases |pods|
  {
    if pods != [] { PodsOrNone(pods[1..]); }
  }

  // ---- one stage -------------------------------------------------------------------------------

  /** When pods go and jobs end, less is pending at every stage, and what was posted is posted. */
  lemma PendingWanes(w: World, v: World)
    requires Grows(w, v) && v.nodes == w.nodes
    ensures forall k: nat :: Pending(v, k) <= Pending(w, k) || (k == 3 && CLEAR_DB_JOB !in w.jobs)
    ensures forall k: nat :: Posted(w, k) ==> Posted(v, k)
  {
    hide StateOf, PodNames;
    assert forall j :: IsDone(w, j) ==> IsDone(v, j);
    assert Unfinished(v) <= Unfinished(w);
  }

  lemma WanesGrows(w: World, v: World)
    requires Wanes(w, v)
    ensures Grows(w, v)
    ensures CLEAR_DB_JOB !in w.jobs ==> CLEAR_DB_JOB !in v.jobs
  {
  }

  lemma PendingWanesAll(w: World, v: World)
    requires Wanes(w, v) && v.nodes == w.nodes
    ensures forall k: nat :: Pending(v, k) <= Pending(w, k)
    ensures forall k: nat :: Posted(w, k) ==> Posted(v, k)
  {
    hide PodNames, StateOf;
    WanesGrows(w, v);
    PendingWanes(w, v);
  }

  /** The stage waits, and what it waits for was pending when it began. */
  ghost predicate Waits(s: Sys, r: Ran, k: nat)
  {
    && r.flow == Return(Requeue(1), None)
    && Pending(s.w, k) != multiset{} && Pending(r.s.w, k) <= Pending(s.w, k) && Posted(r.s.w, k)
  }

  lemma CalmDrain(s: Sys)
    requires Peaceful(s)
    ensures var r := AwaitDrain(s); Still(s, r.s) && (Fine(r.flow) || Waits(s, r, 1))
  {
    hide Call, Met, PodNames, WorkloadPods, StateOf;
    MetFacts(s);
    StillCall(s, ListWorkloadPods);
    PodsOrNone(Met(s).pods);
  }

  lemma CalmClearDb(s: Sys)
    requires Peaceful(s)
    ensures var r := AwaitClearDb(s); Still(s, r.s) && (Fine(r.flow) || Waits(s, r, 3))
  {
    hide WaitForJob, RemoveJob, StateOf;
    var waited := WaitForJob(s, CLEAR_DB_JOB);
    CalmWait(s, CLEAR_DB_JOB);
    if waited.flow.Return? && !waited.flow.result.requeue {
      CalmJobRemoval(waited.s, CLEAR_DB_JOB);
    }
  }

  lemma CalmNodeJobs(s: Sys)
    requires Peaceful(s) && Unhindered(s.w) && Orderly(s.order)
    ensures var r := UninstallClusterNodes(s); Still(s, r.s) && (Fine(r.flow) || Waits(s, r, 5))
  {
    hide ClusterNodes, StartUninstallJobs, AwaitUninstallJobs, DeleteUninstallJobs, IsDone, ClusterNames, PodNames;
    var listed := ClusterNodes(s);
    CalmNodes(s);
    if listed.flow == OK {
      var nodes := s.order(listed.nodes);
      assert Names(nodes) == ClusterNames(s.w);
      var started := StartUninstallJobs(listed.s, nodes);
      CalmStarts(listed.s, nodes);
      if started.flow == OK {
        UnhinderedStays(s, started.s);
        SameNames(s, started.s);
        var waited := AwaitUninstallJobs(started.s, nodes);
        CalmWaits(started.s, nodes);
        if waited.flow == OK {
          CalmRemovals(waited.s, nodes);
        } else if waited.flow.Return? {
          NodesWait(s, listed.s, started.s, waited, nodes);
          assert UninstallClusterNodes(s) == waited;
        }
      }
    }
  }

  lemma NodesWait(s: Sys, listed: Sys, started: Sys, waited: Ran, nodes: seq<string>)
    requires Untouched(s, listed) && Still(listed, started) && Grows(listed.w, started.w) && Untouched(started, waited.s)
    requires waited.flow == Return(Requeue(1), None) && Names(nodes) == ClusterNames(s.w)
    requires forall n :: n in nodes ==> UninstallJob(n) in started.w.jobs
    requires exists n :: n in nodes && !IsDone(started.w, UninstallJob(n))
    ensures Waits(s, waited, 5)
  {
    hide PodNames, StateOf, Labelled;
    WanesGrows(s.w, listed.w);
    GrowsOn(s.w, listed.w, started.w);
    WanesGrows(started.w, waited.s.w);
    GrowsOn(s.w, started.w, waited.s.w);
    PendingWanes(s.w, waited.s.w);
    var n :| n in nodes && !IsDone(started.w, UninstallJob(n));
    assert n in Names(nodes) && !IsDone(s.w, UninstallJob(n));
    assert UninstallJob(n) in Unfinished(s.w);
    assert UninstallJob(n) in multiset(Unfinished(s.w));
    forall m | m in ClusterNames(waited.s.w) ensures UninstallJob(m) in waited.s.w.jobs {
      assert m in Names(nodes) && m in nodes;
    }
  }

  lemma SameNames(s: Sys, t: Sys)
    requires Steady(s, t)
    ensures ClusterNames(t.w) == ClusterNames(s.w)
  {
  }

  lemma CalmStage(s: Sys, k: nat)
    requires Peaceful(s) && Unhindered(s.w) && Orderly(s.order) && k < STAGES
    ensures var r := RunStage(s, k); Still(s, r.s) && (Fine(r.flow) || Waits(s, r, k))
  {
    hide RemoveWorkloads, AwaitDrain, StartJob, AwaitClearDb, ReconcileDir, UninstallClusterNodes, DeletePvcs,
      RemoveServiceAccount, Pending;
    if k == 0 { CalmWorkloads(s); }
    else if k == 1 { CalmDrain(s); }
    else if k == 2 { CalmStart(s, CLEAR_DB_JOB); }
    else if k == 3 { CalmClearDb(s); }
    else if k == 4 { CalmDir(s, s.w.res.mgmtComponent, s.w.res.mongo); }
    else if k == 5 { CalmNodeJobs(s); }
    else if k == 6 { CalmPvcs(s); }
    else { CalmAccountRemoval(s); }
  }

  // ---- the stage loop --------------------------------------------------------------------------

  /** Steady, and of the custom resource only the copy's status moves. */
  ghost predicate Proceeds(s: Sys, t: Sys)
  {
    Steady(s, t) && t.w.cr == s.w.cr && t.cr == s.cr.(status := t.cr.status)
  }

  lemma CalmTurn(s: Sys, k: nat)
    requires Peaceful(s) && Unhindered(s.w) && Orderly(s.order) && k < STAGES
    ensures var r := StageTurn(s, k); var tasks := UninstallTasks(s.cr);
      && Proceeds(s, r.s)
      && (Fin(tasks, k) ==> r == Ran(WithTouch(s, UNINSTALL), OK))
      && (Fine(r.flow) || (Waits(s, r, k) && UninstallTasks(r.s.cr) == tasks[StageName(k) := TASK_STARTED]))
  {
    hide RunStage, Pending, Steady, Posted;
    SameTouch(s, WithTouch(s, UNINSTALL));
    if !Fin(UninstallTasks(s.cr), k) {
      var started := WithTask(WithTouch(s, UNINSTALL), UNINSTALL, StageName(k), TASK_STARTED);
      SameTouch(s, started);
      assert UninstallTasks(started.cr) == UninstallTasks(s.cr)[StageName(k) := TASK_STARTED];
      var r := RunStage(started, k);
      CalmStage(started, k);
      SteadyOn(s, started, r.s);
      SameTouch(r.s, WithTask(r.s, UNINSTALL, StageName(k), TASK_FINISHED));
      SteadyOn(s, r.s, WithTask(r.s, UNINSTALL, StageName(k), TASK_FINISHED));
    }
  }

  lemma SameTouch(s: Sys, t: Sys)
    requires CalmTicks(s.ticks) && t == s.(cr := t.cr)
    ensures Steady(s, t)
  {
  }

  lemma SteadyOn(r: Sys, s: Sys, t: Sys)
    requires Steady(r, s) && Steady(s, t)
    ensures Steady(r, t)
  {
  }

  /** The loop stopped at the first unfinished stage, to wait there. */
  ghost predicate StopsWaiting(s: Sys, r: Ran)
  {
    var from, j := Next(UninstallTasks(s.cr), 0), Next(UninstallTasks(r.s.cr), 0);
    && r.flow == Return(Requeue(1), None) && from <= j < STAGES && Posted(r.s.w, j)
    && (j == from ==> Pending(s.w, j) != multiset{} && Pending(r.s.w, j) <= Pending(s.w, j))
  }

  lemma {:induction false} CalmStages(s: Sys, k: nat)
    requires Peaceful(s) && Unhindered(s.w) && Orderly(s.order)
    requires Inv(s) && Uninstalling(s.cr) && k <= STAGES && EarlierDone(s, k)
    ensures var r := RunStages(s, k); Proceeds(s, r.s) && (Fine(r.flow) || StopsWaiting(s, r))
    decreases STAGES - k
  {
    hide StageTurn, Pending, Steady, Posted, Inv, Unhindered, Finished;
    SameTouch(s, s);
    if k < STAGES {
      var one := StageTurn(s, k);
      StageTurnAdvances(s, k);
      CalmTurn(s, k);
      var tasks := UninstallTasks(s.cr);
      if one.flow == OK {
        UnhinderedStays(s, one.s);
        StillPeaceful(s, one.s);
        CalmStages(one.s, k + 1);
        var r := RunStages(one.s, k + 1);
        SteadyOn(s, one.s, r.s);
        if Fin(tasks, k) {
          assert UninstallTasks(one.s.cr) == tasks;
        } else {
          assert forall i: nat :: i < k + 1 ==> Fin(UninstallTasks(one.s.cr), i);
        }
      } else if one.flow.Return? {
        if Fin(tasks, k) { assert false; }
        StartedIsNext(tasks, k);
      }
    }
  }

  lemma StillPeaceful(s: Sys, t: Sys)
    requires Peaceful(s) && Steady(s, t)
    ensures Peaceful(t) && t.order == s.order
  {
  }

  lemma StartedIsNext(tasks: TaskMap, k: nat)
    requires k < STAGES && !Fin(tasks, k) && forall i: nat :: i < k ==> Fin(tasks, i)
    ensures Next(tasks, 0) == k && Next(tasks[StageName(k) := TASK_STARTED], 0) == k
  {
    var after := tasks[StageName(k) := TASK_STARTED];
    hide StageName;
    forall i: nat | i < k ensures Fin(after, i) {
      assert Fin(tasks, i);
      StageNamesDiffer(i, k);
    }
  }

  // ---- one cycle -------------------------------------------------------------------------------

  lemma GoneStays(w: World, v: World)
    requires Gone(w) && Forward(w, v)
    ensures Gone(v)
  {
  }

  /** The cycle starts here: its copy is what is stored, and the resource is being taken down unhindered. */
  ghost predicate SetOut(s: Sys)
  {
    && Inv(s) && Peaceful(s) && Unhindered(s.w) && Orderly(s.order) && Unblocked(s.w, s.cr.spec)
    && s.w.cr == Some(s.cr) && Uninstalling(s.cr) && !s.cr.spec.skipUninstall && ValidSpec(s.cr.spec)
  }

  /** Steady, the stored resource changed at most in its status and version. */
  ghost predicate Recorded(s: Sys, t: Sys)
  {
    && Steady(s, t) && t.w.cr == Some(t.cr) && t.cr == s.cr.(status := t.cr.status, version := t.cr.version)
  }

  /** The cycle ended waiting, with its progress stored. */
  ghost predicate WaitsRecorded(s: Sys, r: Ran)
  {
    Recorded(s, r.s) && StopsWaiting(s, r)
  }

  lemma TakeDownCalmly(s: Sys)
    requires SetOut(s)
    ensures var r := TakeDown(s);
      && Steady(s, r.s) && r.s.w.cr == s.w.cr && r.s.cr.version == s.cr.version
      && (Fine(r.flow) || (StopsWaiting(s, r) && r.s.cr == s.cr.(status := r.s.cr.status)))
  {
    hide RunStages, StopsWaiting, Unhindered, Inv;
    CalmStages(s, 0);
    var r := RunStages(s, 0);
    if r.flow == OK {
      SameTouch(r.s, SwitchedOff(r.s));
      SteadyOn(s, r.s, SwitchedOff(r.s));
    }
  }

  /** Conditions and such do not matter to what is pending. */
  lemma SameWait(s: Sys, r: Ran, after: Ran)
    requires StopsWaiting(s, r) && after.flow == r.flow && UninstallTasks(after.s.cr) == UninstallTasks(r.s.cr)
    requires OnlyCr(r.s, after.s)
    ensures StopsWaiting(s, after)
  {
    hide Wanes, Pending, Posted;
    PendingWanesAll(r.s.w, after.s.w);
  }

  lemma SetOutNow(s: Sys, t: Sys)
    requires SetOut(s) && Untouched(s, t) && Inv(t)
    ensures SetOut(t)
    ensures forall k: nat :: Pending(t.w, k) <= Pending(s.w, k)
  {
    hide Wanes, Pending, Posted, PodNames;
    UnhinderedStays(s, t);
    PendingWanesAll(s.w, t.w);
  }

  lemma NoteCalmly(s: Sys, down: Ran)
    requires SetOut(s) && StopsWaiting(s, down) && Steady(s, down.s) && down.s.w.cr == s.w.cr
    requires Peaceful(down.s) && down.s.cr == s.cr.(status := down.s.cr.status)
    ensures var r := NoteProgress(Uninstalls(down.s), down.flow.result); r.flow.Killed? || WaitsRecorded(s, r)
  {
    hide StopsWaiting, Inv, Unhindered, Call, NoteProgress;
    var noted := Uninstalls(down.s);
    WaitFlow(s, down);
    var r := NoteProgress(noted, down.flow.result);
    assert noted.cr == down.s.cr.(status := noted.cr.status) && UninstallTasks(noted.cr) == UninstallTasks(down.s.cr);
    CalmNote(noted, down.flow.result);
    if r.flow.Return? {
      SameWait(s, down, r);
    }
  }

  lemma WaitFlow(s: Sys, r: Ran)
    requires StopsWaiting(s, r)
    ensures r.flow == Return(Requeue(1), None)
  {
  }

  /** Deleting calmly: it releases the resource, or stores its progress and waits. */
  lemma DeletingCalmly(s: Sys)
    requires SetOut(s)
    ensures var r := BeforeDeleting(s);
      r.flow.Killed? || (r.flow == OK && Gone(r.s.w)) || WaitsRecorded(s, r)
  {
    hide AllowedToDelete, TakeDown, NoteProgress, ReleaseFinalizer, StopsWaiting, Inv, Unhindered, Pending, Recorded;
    var allowed := AllowedToDelete(s);
    CalmGate(s);
    AllowedToDeleteIsQuiet(s);
    if allowed.flow == OK {
      SetOutNow(s, allowed.s);
      var down := TakeDown(allowed.s);
      TakeDownCalmly(allowed.s);
      StillPeaceful(allowed.s, down.s);
      if down.flow == OK {
        CalmRelease(down.s);
      } else if down.flow.Return? {
        WaitFlow(allowed.s, down);
        NoteCalmly(allowed.s, down);
        SameStart(s, allowed.s, BeforeDeleting(s));
      }
    }
  }

  lemma SameStart(s: Sys, t: Sys, r: Ran)
    requires Untouched(s, t) && (r.flow.Killed? || WaitsRecorded(t, r))
    requires forall k: nat :: Pending(t.w, k) <= Pending(s.w, k)
    ensures r.flow.Killed? || WaitsRecorded(s, r)
  {
    hide Pending, Posted;
    if r.flow.Return? { SteadyOn(s, t, r.s); }
  }

  lemma SucceedCalmly(s: Sys, fin: Ran)
    requires WaitsRecorded(s, fin) && Peaceful(fin.s) && fin.s.cr.finalizers != []
    ensures var r := Succeed(fin.s, fin.flow.result); r.flow.Killed? || WaitsRecorded(s, r)
  {
    hide StopsWaiting, PushStatus;
    var ready := WithCondition(fin.s, Ready(Conditions.True, ""));
    var pushed := PushStatus(ready);
    CalmPush(ready);
    if pushed.flow == OK {
      WaitFlow(s, fin);
      var r := Succeed(fin.s, fin.flow.result);
      SameWait(s, fin, r);
    }
  }

  lemma AfterFinalizerCalmly(s: Sys, fin: Ran)
    requires Peaceful(s) && Inv(fin.s) && (fin.flow == OK ==> MayDeploy(fin.s)) && Uninstalling(s.cr)
    requires fin.flow.Killed? || (fin.flow == OK && Gone(fin.s.w)) || WaitsRecorded(s, fin)
    ensures var r := AfterFinalizer(fin); r.flow.Killed? || Gone(r.s.w) || WaitsRecorded(s, r)
  {
    hide StopsWaiting, Inv, Steady, Converge, Succeed, Complain, Gone, Forward;
    if fin.flow == OK {
      if Gone(fin.s.w) {
        ConvergeKeeps(fin.s);
        GoneStays(fin.s.w, Converge(fin.s).s.w);
      } else {
        WaitFlow(s, fin);
      }
    } else if fin.flow.Return? {
      WaitFlow(s, fin);
      StillPeaceful(s, fin.s);
      SucceedCalmly(s, fin);
    }
  }

  lemma HandlingCalmly(s: Sys)
    requires SetOut(s)
    ensures var r := Handle(s); r.flow.Killed? || Gone(r.s.w) || WaitsRecorded(s, r)
  {
    hide EnsureServiceAccount, HandleFinalizer, AfterFinalizer, Inv, Unhindered, Gone, WaitsRecorded, Pending, BeforeDeleting;
    var account := EnsureServiceAccount(s);
    CalmAccount(s);
    EnsureServiceAccountIsQuiet(s);
    if account.flow == OK {
      SetOutNow(s, account.s);
      var fin := HandleFinalizer(account.s);
      assert fin == BeforeDeleting(account.s) by { FinalizerDeletes(account.s); }
      HandleFinalizerKeeps(account.s);
      DeletingCalmly(account.s);
      AfterFinalizerCalmly(account.s, fin);
      if !Gone(AfterFinalizer(fin).s.w) { SameStart(s, account.s, AfterFinalizer(fin)); }
    }
  }

  lemma FinalizerDeletes(s: Sys)
    requires Uninstalling(s.cr)
    ensures HandleFinalizer(s) == BeforeDeleting(s)
  {
  }

  /** The resource is being deleted, and nothing stands in the way. */
  ghost predicate Clear(w: World)
  {
    && Unhindered(w) && w.cr.Some? && Uninstalling(w.cr.value)
    && !w.cr.value.spec.skipUninstall && ValidSpec(w.cr.value.spec) && Unblocked(w, w.cr.value.spec)
  }

  /** A cluster being taken down, with nothing in the way. */
  ghost predicate Winding(w: World)
  {
    WorldInv(w) && Clear(w)
  }

  /** The stage it is at: the first that is not recorded as finished. */
  function Stage(w: World): nat
  {
    if w.cr.None? then STAGES else Next(UninstallTasks(w.cr.value), 0)
  }

  /** A cycle in which every request is answered and that is not cut short; pods may go and jobs end meanwhile. */
  ghost predicate GoodCycle(w: World, c: Cycle)
  {
    CalmTicks(c.ticks) && Orderly(c.order) && Reconcile(Start(w, c)).flow.Return?
  }

  /** From w to v the uninstall got further, or stayed where it was with nothing more pending, and something was. */
  ghost predicate Onward(w: World, v: World)
  {
    Winding(v) && w.cr.Some? && Stage(w) <= Stage(v) && Posted(v, Stage(v))
    && (Stage(v) == Stage(w) ==> Pending(v, Stage(w)) <= Pending(w, Stage(w)) && Pending(w, Stage(w)) != multiset{})
  }

  /** A good cycle ends the uninstall, gets it further, or waits for nothing more than before. */
  lemma GoodCycleGetsOn(w: World, c: Cycle)
    requires Winding(w) && GoodCycle(w, c)
    ensures Gone(AfterCycle(w, c)) || Onward(w, AfterCycle(w, c))
  {
    hide Reconcile, Handle, Unhindered, Gone, StopsWaiting, Pending, Posted, StoredInv, InOrder, Shipped;
    var s := Start(w, c);
    CycleKeeps(w, c);
    FirstRead(w, c);
    var t := Call(s, GetCr).s;
    var set_out := t.(cr := w.cr.value);
    HandlingCalmly(set_out);
    var r := Handle(set_out);
    if !Gone(r.s.w) { OnwardAfter(w, set_out, r); }
  }

  /** The first request reads what is stored. */
  lemma FirstRead(w: World, c: Cycle)
    requires Winding(w) && GoodCycle(w, c)
    ensures var t := Call(Start(w, c), GetCr).s.(cr := w.cr.value);
      Reconcile(Start(w, c)) == Handle(t) && SetOut(t) && Wanes(w, t.w)
      && t.w == w.(log := t.w.log, now := t.w.now, pods := t.w.pods, jobs := t.w.jobs, db := t.w.db)
  {
    hide Handle, StoredInv, InOrder, Shipped, Honest, PodNames, StateOf, EnvRun;
    var s := Start(w, c);
    if s.ticks == [] {
      assert false by { DeadCall(s, GetCr); }
    } else {
      MetFacts(s);
      CalmCall(s, GetCr);
      StartFits(w, c);
      QuietCall(s, GetCr);
      AdoptedCopy(Call(s, GetCr).s, w.cr.value);
      UnhinderedStays(s, Call(s, GetCr).s) by { StillCall(s, GetCr); }
    }
  }

  lemma OnwardAfter(w: World, s: Sys, r: Ran)
    requires Winding(w) && WaitsRecorded(s, r) && SetOut(s) && WorldInv(r.s.w)
    requires s.w == w.(log := s.w.log, now := s.w.now, pods := s.w.pods, jobs := s.w.jobs, db := s.w.db) && Wanes(w, s.w)
    ensures Onward(w, r.s.w)
  {
    hide WorldInv, Inv, Wanes, Pending, Posted;
    UnhinderedStays(s, r.s);
    PendingWanesAll(w, s.w);
  }

  // ---- what the others do between cycles -------------------------------------------------------

  predicate Running(w: World, job: string)
  {
    job in w.jobs && StateOf(w.jobs[job]) == Busy
  }

  /** Moves that put nothing in the way: the nodes, the volumes and the spec stay, no node job fails, vanishes
      or is undone, and the clear-DB job does not start over. */
  predicate Harmless(w: World, e: EnvStep)
  {
    match e
    case NodesBecome(_) => false
    case VolumesBecome(_, _) => false
    case SpecEdited(_) => false
    case JobGone(j) => j !in NodeJobs(w)
    case JobMoves(j, status) =>
      && (j in NodeJobs(w) ==> StateOf(status) != Failing && (IsDone(w, j) ==> StateOf(status) == Succeeded))
      && (j == CLEAR_DB_JOB && !Running(w, j) ==> StateOf(status) != Busy)
    case _ => true
  }

  predicate AllHarmless(w: World, steps: seq<EnvStep>)
    decreases |steps|
  {
    steps != [] ==> Harmless(w, steps[0]) && AllHarmless(EnvStepped(w, steps[0]), steps[1..])
  }

  /** From w to v: released, or further, or at the same stage with nothing more to wait for. */
  ghost predicate NoWorse(w: World, v: World)
  {
    && WorldInv(v)
    && (Gone(v) || (Winding(v) && w.cr.Some? && !Gone(w) && Stage(w) <= Stage(v) &&
          (Stage(v) == Stage(w) ==>
             Pending(v, Stage(w)) <= Pending(w, Stage(w)) && (Posted(w, Stage(w)) ==> Posted(v, Stage(w))))))
  }

  lemma WindingHasCr(w: World)
    requires Winding(w)
    ensures w.cr.Some? && !Gone(w)
  {
  }

  lemma {:induction false} UnrelatedPod(pods: seq<Pod>, p: Pod)
    requires !IsWorkloadComponent(p.component)
    ensures PodNames(pods + [p]) == PodNames(pods)
    decreases |pods|
  {
    if pods == [] {
      assert ([] + [p])[1..] == [];
    } else {
      assert (pods + [p])[1..] == pods[1..] + [p];
      UnrelatedPod(pods[1..], p);
    }
  }

  lemma WorkloadsAreGone(w: World)
    requires Winding(w) && Stage(w) == 1
    ensures WorkloadsAbsent(w)
  {
    assert Fin(UninstallTasks(w.cr.value), 0) && StageEffect(w, 0);
  }

  /** Once the workloads are removed, the set of workload pods only shrinks. */
  lemma PodsOnlyGo(w: World, e: EnvStep)
    requires Winding(w) && Stage(w) == 1
    ensures PodNames(EnvStepped(w, e).pods) <= PodNames(w.pods)
  {
    hide PodNames, Unhindered, StoredInv, InOrder;
    WorkloadsAreGone(w);
    match e
    case PodSpawned(p) =>
      if Enabled(w, e) {
        assert IsWorkloadComponent(p.component) ==> Workload(w.res, DaemonSetOf(p.component));
        UnrelatedPod(w.pods, p);
      }
    case PodGone(n) => FewerPods(w.pods, n);
    case _ =>
  }

  lemma InvAfterMove(w: World, e: EnvStep)
    requires WorldInv(w)
    ensures WorldInv(EnvStepped(w, e)) && Forward(w, EnvStepped(w, e))
  {
    var c := Cycle([], (names: set<string>) => []);
    StartFits(w, c);
    EnvStepKeeps(Start(w, c), e);
  }

  /** What a harmless move does to jobs, nodes and volumes. */
  lemma JobsAfterMove(w: World, e: EnvStep)
    requires Unhindered(w) && Harmless(w, e)
    ensures var v := EnvStepped(w, e);
      && Unhindered(v) && ClusterNames(v) == ClusterNames(w) && v.attachments == w.attachments && v.volumes == w.volumes
      && Unfinished(v) <= Unfinished(w) && (Running(v, CLEAR_DB_JOB) ==> Running(w, CLEAR_DB_JOB))
      && (forall j :: j in NodeJobs(w) && j in w.jobs ==> j in v.jobs)
  {
    hide Managed, StateOf;
    var v := EnvStepped(w, e);
    forall j | j in NodeJobs(w) && IsDone(w, j) ensures IsDone(v, j) {}
    forall n | n in ClusterNames(w) && UninstallJob(n) in v.jobs ensures StateOf(v.jobs[UninstallJob(n)]) != Failing {
      assert UninstallJob(n) in NodeJobs(w);
    }
  }

  lemma CrAfterMove(w: World, e: EnvStep)
    requires w.cr.Some? && Uninstalling(w.cr.value) && Harmless(w, e) && !Gone(EnvStepped(w, e))
    requires WorldInv(w)
    ensures var v := EnvStepped(w, e);
      && v.cr.Some? && Uninstalling(v.cr.value) && v.cr.value.spec == w.cr.value.spec && v.cr.value.status == w.cr.value.status
  {
    hide Managed, WorldInv;
  }

  lemma MoveIsNoWorse(w: World, e: EnvStep)
    requires Winding(w) && Harmless(w, e)
    ensures NoWorse(w, EnvStepped(w, e))
  {
    hide EnvStepped, Harmless, Unhindered, WorldInv, PodNames, Unfinished, ClusterNames, IsDone, Forward;
    var v := EnvStepped(w, e);
    InvAfterMove(w, e);
    if !Gone(v) {
      JobsAfterMove(w, e);
      CrAfterMove(w, e);
      if Stage(w) == 1 { PodsOnlyGo(w, e); }
      if Stage(w) == 5 && Posted(w, 5) {
        forall n | n in ClusterNames(v) ensures UninstallJob(n) in v.jobs { assert UninstallJob(n) in NodeJobs(w); }
      }
    }
  }

  lemma {:induction false} MovesAreNoWorse(w: World, steps: seq<EnvStep>)
    requires WorldInv(w) && (Gone(w) || (Winding(w) && AllHarmless(w, steps)))
    ensures NoWorse(w, EnvRun(w, steps))
    decreases |steps|
  {
    hide Winding, WorldInv, Gone, Harmless, Pending, Posted, Forward;
    if steps == [] {
      if Winding(w) { WindingHasCr(w); }
    } else {
      var v := EnvStepped(w, steps[0]);
      InvAfterMove(w, steps[0]);
      if Gone(w) { GoneStays(w, v); } else { MoveIsNoWorse(w, steps[0]); }
      MovesAreNoWorse(v, steps[1..]);
    }
  }

  // ---- rounds ----------------------------------------------------------------------------------

  /** Moves of the others, then one reconcile cycle. */
  datatype Round = Round(steps: seq<EnvStep>, cycle: Cycle)

  function AfterRound(w: World, r: Round): World
  {
    AfterCycle(EnvRun(w, r.steps), r.cycle)
  }

  function At(w: World, rounds: nat -> Round, n: nat): World
  {
    if n == 0 then w else AfterRound(At(w, rounds, n - 1), rounds(n - 1))
  }

  /** As long as the resource is held: harmless moves and a good cycle. */
  ghost predicate GoodRound(w: World, r: Round)
  {
    !Gone(w) ==> AllHarmless(w, r.steps) && (Gone(EnvRun(w, r.steps)) || GoodCycle(EnvRun(w, r.steps), r.cycle))
  }

  lemma RoundGetsOn(w: World, r: Round)
    requires WorldInv(w) && (Gone(w) || Winding(w)) && GoodRound(w, r)
    ensures var v := AfterRound(w, r);
      && NoWorse(w, v)
      && (Gone(v) || (Winding(v) && Posted(v, Stage(v))))
      && (Winding(w) && Pending(w, Stage(w)) == multiset{} ==> Gone(v) || Stage(w) < Stage(v))
  {
    hide Winding, WorldInv, AfterCycle, GoodCycle, AllHarmless, EnvRun, Pending, Posted, Gone, Forward;
    var u := EnvRun(w, r.steps);
    MovesAreNoWorse(w, r.steps);
    var v := AfterCycle(u, r.cycle);
    CycleKeeps(u, r.cycle);
    if Gone(u) {
      GoneStays(u, v);
    } else {
      GoodCycleGetsOn(u, r.cycle);
      if !Gone(v) { WindingHasCr(v); }
    }
  }

  ghost predicate GoodSchedule(w: World, rounds: nat -> Round)
  {
    forall n: nat :: GoodRound(At(w, rounds, n), rounds(n))
  }

  /** Still being taken down and no worse than u, or released. */
  ghost predicate Along(u: World, v: World)
  {
    WorldInv(v) && (Gone(v) || (Winding(v) && NoWorse(u, v))) && (Gone(u) ==> Gone(v))
  }

  lemma AlongStarts(u: World)
    requires Winding(u)
    ensures Along(u, u)
  {
  }

  lemma AlongOn(u: World, t: World, r: Round)
    requires Along(u, t) && GoodRound(t, r)
    ensures var v := AfterRound(t, r); Along(u, v) && (Gone(v) || Posted(v, Stage(v)))
  {
    hide WorldInv, Winding, AfterRound, GoodRound, Pending, Posted, Gone;
    var v := AfterRound(t, r);
    RoundGetsOn(t, r);
  }

  lemma RoundOfSchedule(w: World, rounds: nat -> Round, n: nat)
    requires GoodSchedule(w, rounds)
    ensures GoodRound(At(w, rounds, n), rounds(n)) && At(w, rounds, n + 1) == AfterRound(At(w, rounds, n), rounds(n))
  {
  }

  lemma {:induction false} Later(w: World, rounds: nat -> Round, n: nat, m: nat)
    requires GoodSchedule(w, rounds) && n <= m && Winding(At(w, rounds, n))
    ensures var u, v := At(w, rounds, n), At(w, rounds, m); Along(u, v) && (n < m ==> Gone(v) || Posted(v, Stage(v)))
    decreases m - n
  {
    hide Winding, At, AfterRound, GoodSchedule, GoodRound, Along, Posted, Gone, Stage;
    if n == m {
      AlongStarts(At(w, rounds, n));
    } else {
      Later(w, rounds, n, m - 1);
      RoundOfSchedule(w, rounds, m - 1);
      AlongOn(At(w, rounds, n), At(w, rounds, m - 1), rounds(m - 1));
    }
  }

  // ---- the theorem -----------------------------------------------------------------------------

  /** Every workload pod goes some day. */
  ghost predicate PodsGo(w: World, rounds: nat -> Round)
  {
    forall n: nat, p :: p in PodNames(At(w, rounds, n).pods) ==>
      exists m: nat :: n <= m && p !in PodNames(At(w, rounds, m).pods)
  }

  /** Every job that runs stops running some day. */
  ghost predicate JobsEnd(w: World, rounds: nat -> Round)
  {
    forall n: nat, j :: Running(At(w, rounds, n), j) ==> exists m: nat :: n <= m && !Running(At(w, rounds, m), j)
  }

  /** A pending job that exists is running; if it exists at this stage and does not run, it is not pending. */
  lemma PendingRuns(w: World, x: string)
    requires Winding(w) && Posted(w, Stage(w)) && Stage(w) != 1
    ensures x in Pending(w, Stage(w)) ==> Running(w, x)
  {
    hide WorldInv, StateOf;
  }

  /** Whatever is pending will not be some day, unless the stage is over before. */
  lemma PendingPasses(w: World, rounds: nat -> Round, n: nat, x: string) returns (m: nat)
    requires GoodSchedule(w, rounds) && PodsGo(w, rounds) && JobsEnd(w, rounds) && Winding(At(w, rounds, n))
    requires var u := At(w, rounds, n); Posted(u, Stage(u)) && x in Pending(u, Stage(u))
    ensures n <= m
    ensures var u, v := At(w, rounds, n), At(w, rounds, m);
      Gone(v) || (Along(u, v) && Posted(v, Stage(v)) && (Stage(v) == Stage(u) ==> x !in Pending(v, Stage(u))))
  {
    hide At, WorldInv, Winding, GoodRound, GoodSchedule, Gone, Next, PodNames, Running, Posted;
    var u := At(w, rounds, n);
    if Stage(u) == 1 {
      m :| n <= m && x !in PodNames(At(w, rounds, m).pods);
    } else {
      PendingRuns(u, x);
      m :| n <= m && !Running(At(w, rounds, m), x);
    }
    Later(w, rounds, n, m);
    var v := At(w, rounds, m);
    if !Gone(v) && Stage(v) != 1 { PendingRuns(v, x); }
  }

  lemma {:induction false} SmallerWithout(a: multiset<string>, b: multiset<string>, x: string)
    requires a <= b && x in b && x !in a
    ensures |a| < |b|
  {
    assert b == a + (b - a) && x in b - a;
  }

  lemma {:induction false} EndsFrom(w: World, rounds: nat -> Round, n: nat) returns (m: nat)
    requires GoodSchedule(w, rounds) && PodsGo(w, rounds) && JobsEnd(w, rounds) && Winding(At(w, rounds, n))
    requires Posted(At(w, rounds, n), Stage(At(w, rounds, n)))
    ensures Gone(At(w, rounds, m))
    decreases STAGES - Stage(At(w, rounds, n)), |Pending(At(w, rounds, n), Stage(At(w, rounds, n)))|
  {
    hide At, WorldInv, AfterRound, GoodSchedule, GoodRound, Gone, Pending, Posted, PodsGo, JobsEnd, Next, Winding;
    var u := At(w, rounds, n);
    if Pending(u, Stage(u)) == multiset{} {
      m := n + 1;
      RoundOfSchedule(w, rounds, n);
      AlongStarts(u);
      RoundGetsOn(u, rounds(n));
    } else {
      var x :| x in Pending(u, Stage(u));
      m := PendingPasses(w, rounds, n, x);
      if !Gone(At(w, rounds, m)) && Stage(At(w, rounds, m)) == Stage(u) {
        SmallerWithout(Pending(At(w, rounds, m), Stage(u)), Pending(u, Stage(u)), x);
      }
    }
    if !Gone(At(w, rounds, m)) { m := EndsFrom(w, rounds, m); }
  }

  lemma WindingEnds(w: World, rounds: nat -> Round)
    requires Winding(w) && GoodSchedule(w, rounds) && PodsGo(w, rounds) && JobsEnd(w, rounds)
    ensures exists m: nat :: Gone(At(w, rounds, m))
  {
    hide Winding, WorldInv, AfterRound, GoodRound, Gone, Posted, PodsGo, JobsEnd, Stage;
    assert At(w, rounds, 0) == w;
    Later(w, rounds, 0, 1);
    if !Gone(At(w, rounds, 1)) { var m := EndsFrom(w, rounds, 1); }
  }

  /** Whatever happened before, crashes and lost writes included: once the resource is being deleted with no volume
      in the way, and from then on no request and no job fails and the nodes stay, then in any fair order of events
      the finalizer is removed after finitely many rounds. */
  lemma UninstallEnds(w: World, before: seq<Cycle>, rounds: nat -> Round)
    requires Begins(w) && Clear(AfterCycles(w, before))
    requires var u := AfterCycles(w, before); GoodSchedule(u, rounds) && PodsGo(u, rounds) && JobsEnd(u, rounds)
    ensures exists m: nat :: Gone(At(AfterCycles(w, before), rounds, m))
  {
    hide Begins, AfterCycles, WorldInv, Clear, GoodSchedule, PodsGo, JobsEnd;
    BeginningKeeps(w);
    CyclesKeep(w, before);
    WindingEnds(AfterCycles(w, before), rounds);
  }
}
