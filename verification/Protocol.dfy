/** The uninstall protocol from the stage loop up to the finalizer. */
module Protocol {
  import opened Basics
  import opened Strings
  import opened Kube
  import opened Objects
  import opened Tasks
  import opened StatusUpdater
  import opened Uninstall
  import opened Finalizer
  import opened Safety
  import opened StageSafety

  // ---- the cycle's own bookkeeping -------------------------------------------------------------

  lemma StageNamesDiffer(i: nat, j: nat)
    requires i < STAGES && j < STAGES
    ensures StageName(i) == StageName(j) ==> i == j
    ensures StageName(i) != ACTION_COMPLETE
  {
    StageLength(i);
    StageLength(j);
    assert |ACTION_COMPLETE| == 14;
  }

  lemma StageLength(i: nat)
    requires i < STAGES
    ensures |StageName(i)| == [18, 24, 7, 22, 11, 21, 10, 27][i]
  {
  }

  ghost predicate EarlierDone(s: Sys, k: nat)
  {
    forall i: nat :: i < k && i < STAGES ==> Fin(UninstallTasks(s.cr), i)
  }

  ghost predicate AllDone(tasks: TaskMap)
  {
    forall i: nat :: i < STAGES ==> Fin(tasks, i)
  }

  lemma StartedKeeps(s: Sys, k: nat)
    requires Inv(s) && Uninstalling(s.cr) && k < STAGES && EarlierDone(s, k) && !Fin(UninstallTasks(s.cr), k)
    ensures var t := WithTask(s, UNINSTALL, StageName(k), TASK_STARTED);
      Inv(t) && EarlierDone(t, k) && NoLessThan(UninstallTasks(s.cr), UninstallTasks(t.cr))
  {
    var t := WithTask(s, UNINSTALL, StageName(k), TASK_STARTED);
    var before, after := UninstallTasks(s.cr), UninstallTasks(t.cr);
    assert after == before[StageName(k) := TASK_STARTED];
    forall i: nat | i < STAGES ensures Fin(after, i) <==> Fin(before, i) {}
    forall i: nat, j: nat | i < j < STAGES && Begun(after, j) ensures Fin(after, i) {
      if j != k { assert Begun(before, j); }
    }
    assert Fin(before, k) || ACTION_COMPLETE !in before;
    assert Prefix(after);
    assert Honest(s.w, after);
  }

  lemma FinishedKeeps(s: Sys, k: nat)
    requires Inv(s) && Uninstalling(s.cr) && k < STAGES && EarlierDone(s, k) && StageEffect(s.w, k)
    ensures var t := WithTask(s, UNINSTALL, StageName(k), TASK_FINISHED);
      Inv(t) && EarlierDone(t, k + 1) && NoLessThan(UninstallTasks(s.cr), UninstallTasks(t.cr))
  {
    var t := WithTask(s, UNINSTALL, StageName(k), TASK_FINISHED);
    var before, after := UninstallTasks(s.cr), UninstallTasks(t.cr);
    assert after == before[StageName(k) := TASK_FINISHED];
    hide StageName;
    forall i: nat | i < STAGES ensures Fin(after, i) <==> Fin(before, i) || i == k { StageNamesDiffer(i, k); }
    forall i: nat, j: nat | i < j < STAGES && Begun(after, j) ensures Fin(after, i) {
      StageNamesDiffer(j, k);
      if j != k { assert Begun(before, j); }
    }
    StageNamesDiffer(k, k);
    assert Prefix(after);
    assert Honest(s.w, after);
  }

  lemma SameTasksKeep(s: Sys, t: Sys)
    requires Inv(s) && t.w == s.w && UninstallTasks(t.cr) == UninstallTasks(s.cr)
    requires t.cr.version == s.cr.version && t.cr.deleting == s.cr.deleting && (Uninstalling(t.cr) ==> Uninstalling(s.cr))
    ensures Inv(t)
    ensures MayDeploy(s) ==> MayDeploy(t)
  {
  }

  // ---- the stage loop --------------------------------------------------------------------------

  /** Quiet, except that the copy's status moved forward. */
  ghost predicate Advances(s: Sys, t: Sys)
  {
    && Inv(t) && Calmer(s.w, t.w) && NoCrUpdates(s.w, t.w)
    && t.cr == s.cr.(status := t.cr.status)
    && NoLessThan(UninstallTasks(s.cr), UninstallTasks(t.cr))
  }

  lemma AdvancesTransitive(r: Sys, s: Sys, t: Sys)
    requires Advances(r, s) && Advances(s, t)
    ensures Advances(r, t)
  {
    CalmerTransitive(r.w, s.w, t.w);
  }

  lemma StageTurnAdvances(s: Sys, k: nat)
    requires Inv(s) && Uninstalling(s.cr) && k < STAGES && EarlierDone(s, k)
    ensures var r := StageTurn(s, k); Advances(s, r.s) && Plain(r.flow) && (r.flow == OK ==> EarlierDone(r.s, k + 1))
  {
    var seen := WithTouch(s, UNINSTALL);
    SameTasksKeep(s, seen);
    if !Fin(UninstallTasks(s.cr), k) {
      var started := WithTask(seen, UNINSTALL, StageName(k), TASK_STARTED);
      StartedKeeps(seen, k);
      var r := RunStage(started, k);
      RunStageIsQuiet(started, k);
      if r.flow == OK { FinishedKeeps(r.s, k); }
    }
  }

  lemma {:induction false} RunStagesAdvance(s: Sys, k: nat)
    requires Inv(s) && Uninstalling(s.cr) && EarlierDone(s, k)
    ensures var r := RunStages(s, k); Advances(s, r.s) && Plain(r.flow) && (r.flow == OK ==> AllDone(UninstallTasks(r.s.cr)))
    decreases STAGES - k
  {
    hide RunStage;
    if k < STAGES {
      var one := StageTurn(s, k);
      StageTurnAdvances(s, k);
      if one.flow == OK {
        RunStagesAdvance(one.s, k + 1);
        AdvancesTransitive(s, one.s, RunStages(one.s, k + 1).s);
      }
    }
  }

  predicate AllDisabled(spec: Spec)
  {
    spec.coreDisabled && spec.csiDisabled && spec.mgmtDisabled
  }

  lemma SwitchedOffKeeps(s: Sys)
    requires Inv(s) && AllDone(UninstallTasks(s.cr))
    ensures Inv(SwitchedOff(s)) && AllDone(UninstallTasks(SwitchedOff(s).cr)) && AllDisabled(SwitchedOff(s).cr.spec)
  {
    var t := SwitchedOff(s);
    var before, after := UninstallTasks(s.cr), UninstallTasks(t.cr);
    assert after == before[ACTION_COMPLETE := TASK_FINISHED];
    forall i: nat | i < STAGES ensures Fin(after, i) && Fin(before, i) && StageName(i) != ACTION_COMPLETE {
      assert Fin(before, i);
    }
    assert Fin(before, 0) && before != map[];
    assert Prefix(before) ==> Prefix(after);
    assert Effects(s.w, before) ==> Effects(s.w, after);
  }

  /** Taking the cluster down: either it stops somewhere with honest progress, or every stage is finished
      and every component is switched off in the copy; unless the spec skips it all. */
  lemma TakeDownAdvances(s: Sys)
    requires Inv(s) && Uninstalling(s.cr)
    ensures var r := TakeDown(s);
      && Inv(r.s) && Calmer(s.w, r.s.w) && Uninstalling(r.s.cr) && Plain(r.flow)
      && r.s.cr.finalizers == s.cr.finalizers && r.s.cr.version == s.cr.version && NoCrUpdates(s.w, r.s.w)
      && NoLessThan(UninstallTasks(s.cr), UninstallTasks(r.s.cr))
      && (r.flow == OK && !s.cr.spec.skipUninstall ==> AllDone(UninstallTasks(r.s.cr)) && AllDisabled(r.s.cr.spec))
  {
    QuietReflexive(s);
    if !s.cr.spec.skipUninstall {
      var r := RunStages(s, 0);
      RunStagesAdvance(s, 0);
      if r.flow == OK { SwitchedOffKeeps(r.s); }
    }
  }

  // ---- writing the status ----------------------------------------------------------------------

  /** A copy the API server handed out fits the invariant again. */
  lemma AdoptedCopy(s: Sys, cr: Cr)
    requires Inv(s)
    requires s.w.cr == Some(cr) || (s.w.cr.None? && cr.deleting && cr.finalizers == [] && cr.version <= s.w.revision)
    ensures Inv(s.(cr := cr))
  {
  }

  lemma AnsweredCopy(s: Sys, q: Request)
    requires Inv(s) && Allowed(s, q) && (q.GetCr? || q.UpdateCr? || q.UpdateStatus?) && Call(s, q).reply.CrIs?
    ensures var a := Call(s, q); var cr := a.reply.cr;
      && (a.s.w.cr == Some(cr) || (a.s.w.cr.None? && cr.deleting && cr.finalizers == [] && cr.version <= a.s.w.revision))
      && (q.UpdateCr? ==> cr.spec == q.cr.spec && cr.finalizers == q.cr.finalizers && cr.deleting == s.cr.deleting)
      && (q.UpdateStatus? ==> cr.status == q.cr.status)
  {
    EnvRunKeeps(s, s.ticks[0].steps, q);
  }

  /** A fresh copy that is given this cycle's own tasks back fits the invariant as well. */
  lemma RestoredTasks(s: Sys, cr: Cr, status: CrStatus)
    requires Inv(s) && s.w.cr == Some(cr) && TasksOf(status, UNINSTALL) == UninstallTasks(s.cr)
    ensures Inv(s.(cr := cr.(status := status)))
  {
  }

  lemma {:induction false} WriteStatusKeeps(s: Sys, status: CrStatus, attempts: nat)
    requires Inv(WithStatus(s, status))
    ensures var r := WriteStatus(s, status, attempts); Inv(r.s) && Calmer(s.w, r.s.w)
    decreases attempts, 0
  {
    hide Call, StoredInv, InOrder, Shipped, Calmer;
    var ready := WithStatus(s, status);
    var q := UpdateStatus(ready.cr);
    var a := Call(ready, q);
    QuietCall(ready, q);
    if a.reply.CrIs? {
      AnsweredCopy(ready, q);
      AdoptedCopy(a.s, a.reply.cr);
    } else if a.reply == Fails(Conflict) && attempts > 1 {
      RereadKeeps(a.s, status, attempts - 1);
      CalmerTransitive(s.w, a.s.w, RereadAndWrite(a.s, status, attempts - 1).s.w);
    }
  }

  lemma {:induction false} RereadKeeps(s: Sys, status: CrStatus, attempts: nat)
    requires Inv(s) && s.cr.status == status
    ensures var r := RereadAndWrite(s, status, attempts); Inv(r.s) && Calmer(s.w, r.s.w)
    decreases attempts, 1
  {
    hide Call, StoredInv, InOrder, Shipped, Calmer;
    var a := Call(s, GetCr);
    QuietCall(s, GetCr);
    if a.reply.CrIs? {
      AnsweredCopy(s, GetCr);
      StoredCopyExists(s);
      var t := a.s.(cr := a.reply.cr);
      RestoredTasks(a.s, a.reply.cr, status);
      WriteStatusKeeps(t, status, attempts);
      CalmerTransitive(s.w, a.s.w, WriteStatus(t, status, attempts).s.w);
    }
  }

  lemma StoredCopyExists(s: Sys)
    requires Call(s, GetCr).reply.CrIs?
    ensures Call(s, GetCr).s.w.cr == Some(Call(s, GetCr).reply.cr)
  {
  }

  lemma PushStatusKeeps(s: Sys)
    requires Inv(s)
    ensures var r := PushStatus(s); Inv(r.s) && Calmer(s.w, r.s.w)
  {
    assert WithStatus(s, s.cr.status) == s;
    WriteStatusKeeps(s, s.cr.status, STATUS_ATTEMPTS);
  }

  lemma SucceedKeeps(s: Sys, result: Result)
    requires Inv(s)
    ensures var r := Succeed(s, result); Inv(r.s) && Calmer(s.w, r.s.w)
  {
    var t := WithCondition(s, Ready(Conditions.True, ""));
    SameTasksKeep(s, t);
    PushStatusKeeps(t);
  }

  lemma ComplainKeeps(s: Sys, issue: Error, result: Result)
    requires Inv(s)
    ensures var r := Complain(s, issue, result); Inv(r.s) && Calmer(s.w, r.s.w)
  {
    var t := WithCondition(s, Ready(Conditions.False, ErrorText(issue)));
    SameTasksKeep(s, t);
    PushStatusKeeps(t);
  }

  // ---- the finalizer ---------------------------------------------------------------------------

  /** Removal works entry by entry: it keeps what is not the string where it is, in order, and skips the string. */
  lemma {:induction false} RemovalInOrder(before: seq<string>, after: seq<string>, f: string)
    ensures RemoveString(before + after, f) == RemoveString(before, f) + RemoveString(after, f)
    ensures f !in before ==> RemoveString(before, f) == before
    ensures RemoveString([f], f) == []
    decreases |before| + |after|
  {
    if after != [] {
      var n := |after| - 1;
      assert (before + after)[..|before + after| - 1] == before + after[..n];
      RemovalInOrder(before, after[..n], f);
    } else if before != [] {
      var n := |before| - 1;
      assert before + after == before && before == before[..n] + [before[n]];
      RemovalInOrder(before[..n], [], f);
    }
    assert before + [] == before && [f][..0] == [];
  }

  lemma {:induction false} RemovedStringIsGone(list: seq<string>, f: string)
    ensures f !in RemoveString(list, f)
    ensures forall x :: x in RemoveString(list, f) <==> x in list && x != f
  {
    if list != [] {
      var n := |list| - 1;
      RemovedStringIsGone(list[..n], f);
      assert list == list[..n] + [list[n]];
    }
  }

  lemma PushCrKeeps(s: Sys)
    requires Inv(s) && !Uninstalling(s.cr)
    ensures var r := PushCr(s);
      && Inv(r.s) && Calmer(s.w, r.s.w) && !Uninstalling(r.s.cr)
      && (r.flow == OK ==> r.s.cr.spec == s.cr.spec && r.s.cr.deleting == s.cr.deleting)
      && (r.flow == OK && r.s.w.cr.Some? ==> r.s.w.cr == Some(r.s.cr))
      && (r.flow != OK ==> r.s.cr == s.cr) && Plain(r.flow)
  {
    var q := UpdateCr(s.cr);
    var a := Call(s, q);
    CallKeeps(s, q);
    if a.reply.CrIs? {
      AnsweredCopy(s, q);
      AdoptedCopy(a.s, a.reply.cr);
    } else {
      AnswersFit(s, q);
    }
  }

  lemma VolumeCheckIsQuiet(s: Sys, q: Request)
    requires Inv(s) && (q.ListAttachments? || q.ListVolumes?)
    ensures Quiet(s, VolumeCheck(s, q).s)
  {
    QuietCall(s, q);
  }

  lemma AllowedToDeleteIsQuiet(s: Sys)
    requires Inv(s)
    ensures Quiet(s, AllowedToDelete(s).s) && Plain(AllowedToDelete(s).flow)
  {
    VolumeCheckIsQuiet(s, ListAttachments);
    var t := VolumeCheck(s, ListAttachments).s;
    VolumeCheckIsQuiet(t, ListVolumes);
    QuietTransitive(s, t, VolumeCheck(t, ListVolumes).s);
  }

  lemma NoteProgressKeeps(s: Sys, result: Result)
    requires Inv(s)
    ensures var r := NoteProgress(s, result);
      Inv(r.s) && Calmer(s.w, r.s.w) && (r.flow.Killed? || r.flow == Return(result, None))
  {
    var q := UpdateStatus(s.cr);
    var a := Call(s, q);
    QuietCall(s, q);
    if a.reply.CrIs? {
      AnsweredCopy(s, q);
      AdoptedCopy(a.s, a.reply.cr);
    }
  }

  /** Giving up the finalizer in the copy is harmless; the stored progress stays covered. */
  lemma ReleaseKeeps(s: Sys)
    requires Inv(s) && Uninstalling(s.cr)
    ensures var r := ReleaseFinalizer(s);
      && Inv(r.s) && Calmer(s.w, r.s.w) && !Uninstalling(r.s.cr) && Plain(r.flow)
      && (r.flow == OK ==> MayDeploy(r.s) && r.s.cr.spec == s.cr.spec && r.s.cr.deleting)
  {
    var t := WithFinalizers(s, RemoveString(s.cr.finalizers, CLUSTER_FINALIZER));
    RemovedStringIsGone(s.cr.finalizers, CLUSTER_FINALIZER);
    SameTasksKeep(s, t);
    PushCrKeeps(t);
  }

  lemma TakeKeeps(s: Sys)
    requires Inv(s) && !s.cr.deleting
    ensures var r := TakeFinalizer(s); Inv(r.s) && Calmer(s.w, r.s.w) && Plain(r.flow) && (r.flow == OK ==> MayDeploy(r.s))
  {
    var t := WithFinalizers(s, s.cr.finalizers + [CLUSTER_FINALIZER]);
    SameTasksKeep(s, t);
    PushCrKeeps(t);
  }

  /** The copy was read in this cycle: if it is marked for deletion without our finalizer, then so is what
      is stored. */
  ghost predicate ReadInThisCycle(s: Sys)
  {
    s.cr.deleting && !Ours(s.cr) && s.w.cr.Some? ==> !Ours(s.w.cr.value)
  }

  lemma BeforeDeletingKeeps(s: Sys)
    requires Inv(s) && Uninstalling(s.cr)
    ensures var r := BeforeDeleting(s);
      && Inv(r.s) && Calmer(s.w, r.s.w) && Plain(r.flow)
      && (r.flow == OK ==> MayDeploy(r.s) && (!s.cr.spec.skipUninstall ==> AllDisabled(r.s.cr.spec)))
  {
    hide TakeDown, AllowedToDelete, ReleaseFinalizer, NoteProgress, StoredInv, CopyInv, InOrder, Shipped;
    var allowed := AllowedToDelete(s);
    AllowedToDeleteIsQuiet(s);
    if allowed.flow == OK {
      var r := TakeDown(allowed.s);
      TakeDownAdvances(allowed.s);
      CalmerTransitive(s.w, allowed.s.w, r.s.w);
      if r.flow.Killed? || r.flow.err.Some? {
      } else if r.flow.result.requeue {
        var t := Uninstalls(r.s);
        SameTasksKeep(r.s, t);
        NoteProgressKeeps(t, r.flow.result);
        CalmerTransitive(s.w, t.w, NoteProgress(t, r.flow.result).s.w);
      } else {
        ReleaseKeeps(r.s);
        CalmerTransitive(s.w, r.s.w, ReleaseFinalizer(r.s).s.w);
      }
    }
  }

  lemma HandleFinalizerKeeps(s: Sys)
    requires Inv(s) && ReadInThisCycle(s)
    ensures var r := HandleFinalizer(s);
      && Inv(r.s) && Calmer(s.w, r.s.w) && Plain(r.flow)
      && (r.flow == OK ==> MayDeploy(r.s))
      && (r.flow == OK && Uninstalling(s.cr) && !s.cr.spec.skipUninstall ==> AllDisabled(r.s.cr.spec))
  {
    QuietReflexive(s);
    if s.cr.deleting {
      if Ours(s.cr) { BeforeDeletingKeeps(s); }
    } else if !Ours(s.cr) {
      TakeKeeps(s);
    }
  }
}
