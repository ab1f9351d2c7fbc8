/** Volumes first, finalizer last: a cycle that takes the cluster down acts only after it saw that no volume is in
    use, and lets go of the resource only when every stage is finished. */
module Gate {
  import opened Basics
  import opened Kube
  import opened Objects
  import opened StatusUpdater
  import opened Uninstall
  import opened Finalizer
  import opened Reconciler
  import opened Safety
  import opened StageSafety
  import opened Protocol
  import opened CycleSafety
  import opened Runs

  /** Requests that change the cluster otherwise than by recording status or creating what is missing. */
  predicate Acts(q: Request)
  {
    q.DeleteObject? || q.UpdateObject? || q.UpdateCr? || q.CreateJob? || q.DeleteJob? || q.DeletePod? || q.UpdateSettings?
  }

  ghost predicate Idle(s: Sys, t: Sys)
  {
    s.w.log <= t.w.log && forall i :: |s.w.log| <= i < |t.w.log| ==> !Acts(t.w.log[i].request)
  }

  lemma IdleOn(r: Sys, s: Sys, t: Sys)
    requires Idle(r, s) && Idle(s, t)
    ensures Idle(r, t)
  {
  }

  lemma IdleCall(s: Sys, q: Request)
    requires !Acts(q)
    ensures Idle(s, Call(s, q).s)
  {
    hide Call;
    OneMoreEntry(s, q);
  }

  lemma EnsuringIsIdle(s: Sys, m: Manifest)
    ensures Idle(s, EnsureObject(s, None, m).s)
  {
    hide Call;
    var found := Call(s, GetObject(m.key)).s;
    IdleCall(s, GetObject(m.key));
    IdleCall(found, CreateObject(m));
    IdleOn(s, found, Call(found, CreateObject(m)).s);
  }

  lemma AccountIsIdle(s: Sys)
    ensures Idle(s, EnsureServiceAccount(s).s)
  {
    hide EnsureObject;
    var account := EnsureObject(s, None, SERVICE_ACCOUNT).s;
    EnsuringIsIdle(s, SERVICE_ACCOUNT);
    var role := EnsureObject(account, None, CLUSTER_ROLE).s;
    EnsuringIsIdle(account, CLUSTER_ROLE);
    IdleOn(s, account, role);
    EnsuringIsIdle(role, ROLE_BINDING);
    IdleOn(s, role, EnsureObject(role, None, ROLE_BINDING).s);
  }

  lemma {:induction false} WritingIsIdle(s: Sys, status: CrStatus, attempts: nat)
    ensures Idle(s, WriteStatus(s, status, attempts).s)
    decreases attempts, 0
  {
    hide Call;
    var ready := WithStatus(s, status);
    var a := Call(ready, UpdateStatus(ready.cr));
    IdleCall(ready, UpdateStatus(ready.cr));
    if a.reply == Fails(Conflict) && attempts > 1 {
      RereadingIsIdle(a.s, status, attempts - 1);
      IdleOn(ready, a.s, RereadAndWrite(a.s, status, attempts - 1).s);
    }
  }

  lemma {:induction false} RereadingIsIdle(s: Sys, status: CrStatus, attempts: nat)
    ensures Idle(s, RereadAndWrite(s, status, attempts).s)
    decreases attempts, 1
  {
    hide Call;
    var a := Call(s, GetCr);
    IdleCall(s, GetCr);
    if a.reply.CrIs? {
      var t := a.s.(cr := a.reply.cr);
      WritingIsIdle(t, status, attempts);
      IdleOn(s, t, WriteStatus(t, status, attempts).s);
    }
  }

  lemma ComplainingIsIdle(s: Sys, issue: Error, result: Result)
    ensures Idle(s, Complain(s, issue, result).s)
  {
    hide WriteStatus;
    var t := WithCondition(s, Ready(Conditions.False, ErrorText(issue)));
    WritingIsIdle(t, t.cr.status, STATUS_ATTEMPTS);
  }

  /** The listing could not be made, or shows an attached attachment or a volume of the NVMesh driver. */
  predicate ShowsVolumes(reply: Reply)
  {
    || reply.Fails?
    || (reply.AttachmentsAre? && exists a :: a in reply.attachments && a.attached && a.attacher == "nvmesh-csi.excelero.com")
    || (reply.VolumesAre? && exists v :: v in reply.volumes && v.driver == Some("nvmesh-csi.excelero.com"))
  }

  /** It shows some, and the override is not set. */
  predicate Blocked(cr: Cr, reply: Reply)
  {
    ShowsVolumes(reply) && !cr.spec.ignoreVolumeAttachmentOnDelete
  }

  lemma ErrorExactly(reply: Reply)
    ensures VolumeError(reply).Some? <==> ShowsVolumes(reply)
    ensures VolumeError(reply).Some? ==> VolumeError(reply).value == if reply.Fails? then reply.error else VolumesInUse
  {
  }

  /** One check, both ways: it dies with the process or over an unnamed volume, refuses what is blocked, and passes
      everything else. */
  lemma CheckExactly(s: Sys, q: Request)
    requires q.ListAttachments? || q.ListVolumes?
    ensures var reply := Call(s, q).reply; var flow := VolumeCheck(s, q).flow;
      var unnamed := reply.AttachmentsAre? && exists i :: 0 <= i < |reply.attachments| && reply.attachments[i].volume == None;
      flow == if reply.Silence? || unnamed then Killed
              else if Blocked(s.cr, reply) then Fail(if reply.Fails? then reply.error else VolumesInUse)
              else OK
  {
    hide Call;
    ErrorExactly(Call(s, q).reply);
  }

  /** The gate opens exactly when both listings, the volumes after the attachments, are clean. */
  lemma GateExactly(s: Sys)
    ensures var first := Call(s, ListAttachments); var second := Call(first.s, ListVolumes);
      var unnamed := first.reply.AttachmentsAre?
        && exists i :: 0 <= i < |first.reply.attachments| && first.reply.attachments[i].volume == None;
      AllowedToDelete(s).flow == OK <==>
        && !first.reply.Silence? && !unnamed && !Blocked(s.cr, first.reply)
        && !second.reply.Silence? && !Blocked(s.cr, second.reply)
  {
    hide Call, Blocked, VolumeError;
    CheckExactly(s, ListAttachments);
    var first := Call(s, ListAttachments).s;
    CheckExactly(first, ListVolumes);
    OneKindOfListing(s);
  }

  lemma OneKindOfListing(s: Sys)
    ensures VolumeCheck(s, ListAttachments).s == Call(s, ListAttachments).s && Call(s, ListAttachments).s.cr == s.cr
    ensures !Call(Call(s, ListAttachments).s, ListVolumes).reply.AttachmentsAre?
  {
    hide EnvRun;
  }

  lemma CheckIsOneRequest(s: Sys, q: Request)
    requires q.ListAttachments? || q.ListVolumes?
    ensures var r := VolumeCheck(s, q);
      && r.s.cr == s.cr
      && (r.flow == OK ==> |r.s.w.log| == |s.w.log| + 1 && r.s.w.log[..|s.w.log|] == s.w.log)
      && (r.flow == OK ==> r.s.w.log[|s.w.log|].request == q && !Blocked(s.cr, r.s.w.log[|s.w.log|].reply))
      && (r.flow != OK ==> |r.s.w.log| <= |s.w.log| + 1)
  {
    OneMoreEntry(s, q);
    ReplyTells(s, q);
  }

  /** The override documented for persistent volumes has no say: flipping it changes nothing of the checks. */
  lemma PersistentVolumeOverrideIsNeverRead(s: Sys, flag: bool)
    ensures var flipped := s.cr.(spec := s.cr.spec.(ignorePersistentVolumesOnDelete := flag));
      AllowedToDelete(s.(cr := flipped)) == Ran(AllowedToDelete(s).s.(cr := flipped), AllowedToDelete(s).flow)
  {
    hide EnvRun, Effect, Answer, Panics, VolumeError;
    CopyDoesNotMatter(s, ListAttachments, flag);
    CopyDoesNotMatter(VolumeCheck(s, ListAttachments).s, ListVolumes, flag);
  }

  lemma CopyDoesNotMatter(s: Sys, q: Request, flag: bool)
    ensures var flipped := s.cr.(spec := s.cr.spec.(ignorePersistentVolumesOnDelete := flag));
      VolumeCheck(s.(cr := flipped), q) == Ran(VolumeCheck(s, q).s.(cr := flipped), VolumeCheck(s, q).flow)
  {
    hide EnvRun, Effect, Answer, Panics, VolumeError;
  }

  lemma BeforeDeletingLog(s: Sys)
    requires Inv(s) && Uninstalling(s.cr) && AllowedToDelete(s).flow == OK
    ensures AllowedToDelete(s).s.w.log <= BeforeDeleting(s).s.w.log
  {
    hide TakeDown, ReleaseFinalizer, NoteProgress, AllowedToDelete, StoredInv, CopyInv, InOrder, Shipped;
    var allowed := AllowedToDelete(s);
    AllowedToDeleteIsQuiet(s);
    var r := TakeDown(allowed.s);
    TakeDownAdvances(allowed.s);
    if r.flow.Killed? || r.flow.err.Some? {
    } else if r.flow.result.requeue {
      var t := Uninstalls(r.s);
      SameTasksKeep(r.s, t);
      NoteProgressKeeps(t, r.flow.result);
    } else {
      ReleaseKeeps(r.s);
    }
  }

  /** From `from` on, this copy of the resource was acted for only after both listings, made in order, were free of
      our volumes; unless the override was set. */
  ghost predicate Gated(log: seq<Entry>, from: nat, cr: Cr)
  {
    forall i :: from <= i < |log| && Acts(log[i].request) ==> Passed(log, from, i, cr)
  }

  ghost predicate Passed(log: seq<Entry>, from: nat, i: nat, cr: Cr)
    requires i <= |log|
  {
    exists j, k :: from <= j < k < i
      && log[j].request == ListAttachments && !Blocked(cr, log[j].reply)
      && log[k].request == ListVolumes && !Blocked(cr, log[k].reply)
  }

  lemma IdleIsGated(s: Sys, t: Sys, from: nat, cr: Cr)
    requires Idle(s, t) && from <= |s.w.log| && Gated(s.w.log, from, cr)
    ensures Gated(t.w.log, from, cr)
  {
    GatedGrows(s.w.log, t.w.log, from, cr);
  }

  lemma GatedGrows(log: seq<Entry>, more: seq<Entry>, from: nat, cr: Cr)
    requires log <= more && from <= |log| && Gated(log, from, cr)
    requires forall i :: |log| <= i < |more| && Acts(more[i].request) ==> Passed(more, from, i, cr)
    ensures Gated(more, from, cr)
  {
    forall i | from <= i < |more| && Acts(more[i].request) ensures Passed(more, from, i, cr) {
      if i < |log| {
        assert more[i] == log[i];
        assert forall j :: 0 <= j < i ==> more[j] == log[j];
      }
    }
  }

  lemma PassedOpens(log: seq<Entry>, more: seq<Entry>, from: nat, cr: Cr)
    requires log <= more && from <= |log| && Gated(log, from, cr) && Passed(log, from, |log|, cr)
    ensures Gated(more, from, cr)
  {
    forall i | |log| <= i < |more| ensures Passed(more, from, i, cr) {
      assert forall j :: 0 <= j < |log| ==> more[j] == log[j];
    }
    GatedGrows(log, more, from, cr);
  }

  /** The two checks: idle, and if they succeed the gate is passed. */
  lemma ChecksGate(s: Sys)
    ensures var r := AllowedToDelete(s);
      && Idle(s, r.s) && (r.flow == OK ==> Passed(r.s.w.log, |s.w.log|, |r.s.w.log|, s.cr))
      && (r.flow.Killed? || r.flow == OK || (r.flow.err.Some? && r.flow.result == DO_NOT_REQUEUE))
  {
    hide Call, Blocked;
    var first := VolumeCheck(s, ListAttachments);
    IdleCall(s, ListAttachments);
    CheckIsOneRequest(s, ListAttachments);
    IdleCall(first.s, ListVolumes);
    CheckIsOneRequest(first.s, ListVolumes);
    IdleOn(s, first.s, VolumeCheck(first.s, ListVolumes).s);
    var r := AllowedToDelete(s);
    if r.flow == OK {
      var n := |s.w.log|;
      assert r.s.w.log[n] == first.s.w.log[n];
    }
  }

  lemma DeletingIsGated(s: Sys, from: nat)
    requires Inv(s) && Uninstalling(s.cr) && from <= |s.w.log| && Gated(s.w.log, from, s.cr)
    ensures var t := AfterFinalizer(BeforeDeleting(s)).s; s.w.log <= t.w.log && Gated(t.w.log, from, s.cr)
  {
    hide TakeDown, AllowedToDelete, ReleaseFinalizer, NoteProgress, Gated, Passed, Converge, Complain, Succeed, Inv;
    var allowed := AllowedToDelete(s);
    ChecksGate(s);
    IdleIsGated(s, allowed.s, from, s.cr);
    var fin := BeforeDeleting(s);
    BeforeDeletingKeeps(s);
    AfterFinalizerKeeps(s, fin);
    var t := AfterFinalizer(fin).s;
    if allowed.flow == OK {
      BeforeDeletingLog(s);
      FinalizerLog(fin);
      PassedEarlier(allowed.s.w.log, |s.w.log|, from, s.cr);
      PassedOpens(allowed.s.w.log, t.w.log, from, s.cr);
    } else if allowed.flow.Return? {
      var issue := allowed.flow.err.value;
      ComplainingIsIdle(allowed.s, issue, Requeue(0));
      IdleIsGated(allowed.s, t, from, s.cr);
    }
  }

  lemma PassedEarlier(log: seq<Entry>, from: nat, earlier: nat, cr: Cr)
    requires earlier <= from && Passed(log, from, |log|, cr)
    ensures Passed(log, earlier, |log|, cr)
  {
  }

  lemma FinalizerLog(fin: Ran)
    requires Inv(fin.s) && Plain(fin.flow) && (fin.flow == OK ==> MayDeploy(fin.s))
    ensures fin.s.w.log <= AfterFinalizer(fin).s.w.log
  {
    AfterFinalizerKeeps(fin.s, fin) by { QuietReflexive(fin.s); }
  }

  lemma HandlingIsGated(s: Sys, from: nat)
    requires Inv(s) && Uninstalling(s.cr) && from <= |s.w.log| && Gated(s.w.log, from, s.cr)
    ensures var t := Handle(s).s; s.w.log <= t.w.log && Gated(t.w.log, from, s.cr)
  {
    hide EnsureServiceAccount, BeforeDeleting, AfterFinalizer, Complain, Gated, Inv, Calmer;
    if !ValidSpec(s.cr.spec) {
      ComplainingIsIdle(s, Invalid, Requeue(0));
      IdleIsGated(s, Complain(s, Invalid, Requeue(0)).s, from, s.cr);
    } else {
      var account := EnsureServiceAccount(s);
      AccountIsIdle(s);
      EnsureServiceAccountIsQuiet(s);
      IdleIsGated(s, account.s, from, s.cr);
      if account.flow.Killed? {
      } else if account.flow.err.Some? {
        var t := Complain(account.s, account.flow.err.value, Requeue(0)).s;
        ComplainingIsIdle(account.s, account.flow.err.value, Requeue(0));
        IdleIsGated(account.s, t, from, s.cr);
      } else {
        DeletingIsGated(account.s, from);
      }
    }
  }

  /** On every run: a cycle that reads a resource being deleted with our finalizer deletes, updates or starts
      nothing and keeps the finalizer, unless in that same cycle both listings were free of our volumes or the one
      override the code reads was set. */
  lemma VolumesFirst(w: World, before: seq<Cycle>, c: Cycle)
    requires Begins(w)
    requires var got := Call(Start(AfterCycles(w, before), c), GetCr).reply; got.CrIs? && Uninstalling(got.cr)
    ensures var u := AfterCycles(w, before);
      Gated(AfterCycle(u, c).log, |u.log|, Call(Start(u, c), GetCr).reply.cr)
  {
    hide AfterCycles, Handle, Call, Gated, WorldInv, Calmer, Inv;
    var u := AfterCycles(w, before);
    BeginningKeeps(w);
    CyclesKeep(w, before);
    StartFits(u, c);
    var s := Start(u, c);
    var got := Call(s, GetCr);
    QuietCallGet(s);
    IdleCall(s, GetCr);
    NothingYet(u.log, got.reply.cr);
    IdleIsGated(s, got.s, |u.log|, got.reply.cr);
    HandlingIsGated(got.s.(cr := got.reply.cr), |u.log|);
  }

  lemma NothingYet(log: seq<Entry>, cr: Cr)
    ensures Gated(log, |log|, cr)
  {
  }

  lemma QuietCallGet(s: Sys)
    requires Inv(s) && Call(s, GetCr).reply.CrIs?
    ensures Inv(Call(s, GetCr).s.(cr := Call(s, GetCr).reply.cr))
  {
    hide StoredInv, InOrder, Shipped, Calmer, Call;
    QuietCall(s, GetCr);
    AnsweredCopy(s, GetCr);
    StoredCopyExists(s);
    AdoptedCopy(Call(s, GetCr).s, Call(s, GetCr).reply.cr);
  }

  // ---- the finalizer ---------------------------------------------------------------------------

  /** A write that lets go of the finalizer, with all eight stages finished in the copy. */
  ghost predicate LetsGo(e: Entry)
  {
    e.request.UpdateCr? && !Ours(e.request.cr) && AllDone(UninstallTasks(e.request.cr))
  }

  ghost predicate LetGo(log: seq<Entry>, from: nat, i: nat)
    requires i <= |log|
  {
    exists j :: from <= j < i && LetsGo(log[j])
  }

  /** From `from` on, the resource itself is written only to let go of it, or after that. */
  ghost predicate HeldUntilDone(log: seq<Entry>, from: nat)
  {
    forall i :: from <= i < |log| && log[i].request.UpdateCr? ==> LetGo(log, from, i + 1)
  }

  lemma HeldOn(log: seq<Entry>, more: seq<Entry>, from: nat)
    requires log <= more && from <= |log| && HeldUntilDone(log, from)
    requires LetGo(log, from, |log|) || forall i :: |log| <= i < |more| ==> !more[i].request.UpdateCr?
    ensures HeldUntilDone(more, from)
  {
    forall i | from <= i < |more| && more[i].request.UpdateCr? ensures LetGo(more, from, i + 1) {
      assert forall j :: 0 <= j < |log| ==> more[j] == log[j];
    }
  }

  lemma ReleaseLog(s: Sys)
    ensures var r := ReleaseFinalizer(s); var log := r.s.w.log; var n := |s.w.log|;
      && s.w.log <= log && |log| <= n + 1 && (r.flow == OK ==> |log| == n + 1)
      && (|log| == n + 1 ==> log[n].request.UpdateCr? && !Ours(log[n].request.cr) && log[n].request.cr.status == s.cr.status)
  {
    var t := WithFinalizers(s, RemoveString(s.cr.finalizers, CLUSTER_FINALIZER));
    RemovedStringIsGone(s.cr.finalizers, CLUSTER_FINALIZER);
    OneMoreEntry(t, UpdateCr(t.cr));
  }

  lemma ReleaseHolds(s: Sys, from: nat)
    requires AllDone(UninstallTasks(s.cr)) && from <= |s.w.log| && HeldUntilDone(s.w.log, from)
    ensures var r := ReleaseFinalizer(s);
      && s.w.log <= r.s.w.log && HeldUntilDone(r.s.w.log, from) && (r.flow == OK ==> LetGo(r.s.w.log, from, |r.s.w.log|))
  {
    hide ReleaseFinalizer, AllDone;
    ReleaseLog(s);
    var log := ReleaseFinalizer(s).s.w.log;
    if |log| > |s.w.log| { assert LetsGo(log[|s.w.log|]); }
    forall i | from <= i < |log| && log[i].request.UpdateCr? ensures LetGo(log, from, i + 1) {
      if i < |s.w.log| { assert log[i] == s.w.log[i] && forall j :: 0 <= j <= i ==> log[j] == s.w.log[j]; }
    }
  }

  lemma IdleHolds(s: Sys, t: Sys, from: nat)
    requires Idle(s, t) && from <= |s.w.log| && HeldUntilDone(s.w.log, from)
    ensures HeldUntilDone(t.w.log, from)
  {
    HeldOn(s.w.log, t.w.log, from);
  }

  lemma NotingIsIdle(s: Sys, result: Result)
    ensures Idle(s, NoteProgress(s, result).s)
    ensures var flow := NoteProgress(s, result).flow; flow.Killed? || flow == Return(result, None)
  {
    hide Call;
    IdleCall(s, UpdateStatus(s.cr));
  }

  lemma TakingDownHolds(s: Sys, from: nat)
    requires Inv(s) && Uninstalling(s.cr) && from <= |s.w.log| && HeldUntilDone(s.w.log, from)
    ensures var r := TakeDown(s); s.w.log <= r.s.w.log && HeldUntilDone(r.s.w.log, from)
  {
    hide TakeDown, HeldUntilDone, Inv, CrForward, WorkloadsAbsent, AllDone, AllDisabled, NoLessThan;
    TakeDownAdvances(s);
    HeldOn(s.w.log, TakeDown(s).s.w.log, from);
  }

  lemma DeletingHolds(s: Sys, from: nat)
    requires Inv(s) && Uninstalling(s.cr) && !s.cr.spec.skipUninstall
    requires from <= |s.w.log| && HeldUntilDone(s.w.log, from)
    ensures var r := BeforeDeleting(s);
      && s.w.log <= r.s.w.log && HeldUntilDone(r.s.w.log, from)
      && (r.flow == OK ==> LetGo(r.s.w.log, from, |r.s.w.log|))
  {
    hide TakeDown, AllowedToDelete, NoteProgress, ReleaseFinalizer, Inv, Calmer, AllDone, HeldUntilDone, LetGo, Passed;
    var allowed := AllowedToDelete(s);
    AllowedToDeleteIsQuiet(s);
    ChecksGate(s);
    IdleHolds(s, allowed.s, from);
    if allowed.flow == OK {
      var r := TakeDown(allowed.s);
      TakeDownAdvances(allowed.s);
      TakingDownHolds(allowed.s, from);
      if r.flow.Killed? || r.flow.err.Some? {
      } else if r.flow.result.requeue {
        NotingIsIdle(Uninstalls(r.s), r.flow.result);
        IdleHolds(Uninstalls(r.s), NoteProgress(Uninstalls(r.s), r.flow.result).s, from);
      } else {
        ReleaseHolds(r.s, from);
      }
    }
  }

  lemma SucceedingIsIdle(s: Sys, result: Result)
    ensures Idle(s, Succeed(s, result).s)
  {
    hide WriteStatus;
    var t := WithCondition(s, Ready(Conditions.True, ""));
    WritingIsIdle(t, t.cr.status, STATUS_ATTEMPTS);
  }

  lemma FinalizedHolds(fin: Ran, from: nat)
    requires Inv(fin.s) && Plain(fin.flow) && (fin.flow == OK ==> MayDeploy(fin.s))
    requires from <= |fin.s.w.log| && HeldUntilDone(fin.s.w.log, from)
    requires fin.flow == OK ==> LetGo(fin.s.w.log, from, |fin.s.w.log|)
    ensures HeldUntilDone(AfterFinalizer(fin).s.w.log, from)
  {
    hide Inv, MayDeploy, Converge, Complain, Succeed, HeldUntilDone, LetGo;
    FinalizerLog(fin);
    if fin.flow.Killed? {
    } else if fin.flow.err.Some? {
      ComplainingIsIdle(fin.s, fin.flow.err.value, Requeue(0));
      IdleHolds(fin.s, Complain(fin.s, fin.flow.err.value, Requeue(0)).s, from);
    } else if fin.flow.result.requeue {
      SucceedingIsIdle(fin.s, fin.flow.result);
      IdleHolds(fin.s, Succeed(fin.s, fin.flow.result).s, from);
    } else {
      HeldOn(fin.s.w.log, AfterFinalizer(fin).s.w.log, from);
    }
  }

  lemma HandlingHolds(s: Sys, from: nat)
    requires Inv(s) && Uninstalling(s.cr) && !s.cr.spec.skipUninstall
    requires from <= |s.w.log| && HeldUntilDone(s.w.log, from)
    ensures HeldUntilDone(Handle(s).s.w.log, from)
  {
    hide EnsureServiceAccount, BeforeDeleting, AfterFinalizer, Complain, HeldUntilDone, LetGo, Inv, Calmer;
    if !ValidSpec(s.cr.spec) {
      ComplainingIsIdle(s, Invalid, Requeue(0));
      IdleHolds(s, Complain(s, Invalid, Requeue(0)).s, from);
    } else {
      var account := EnsureServiceAccount(s);
      AccountIsIdle(s);
      EnsureServiceAccountIsQuiet(s);
      IdleHolds(s, account.s, from);
      if account.flow.Killed? {
      } else if account.flow.err.Some? {
        ComplainingIsIdle(account.s, account.flow.err.value, Requeue(0));
        IdleHolds(account.s, Complain(account.s, account.flow.err.value, Requeue(0)).s, from);
      } else {
        DeletingHolds(account.s, from);
        BeforeDeletingKeeps(account.s);
        FinalizedHolds(BeforeDeleting(account.s), from);
      }
    }
  }

  /** On every run: a cycle that reads a resource being deleted, with our finalizer and without SkipUninstall, writes
      the resource only to let go of it with all eight stages finished, or after it has done so. */
  lemma FinalizerGoesLast(w: World, before: seq<Cycle>, c: Cycle)
    requires Begins(w)
    requires var got := Call(Start(AfterCycles(w, before), c), GetCr).reply;
      got.CrIs? && Uninstalling(got.cr) && !got.cr.spec.skipUninstall
    ensures var u := AfterCycles(w, before); HeldUntilDone(AfterCycle(u, c).log, |u.log|)
  {
    hide AfterCycles, Handle, Call, HeldUntilDone, WorldInv, Calmer, Inv;
    var u := AfterCycles(w, before);
    BeginningKeeps(w);
    CyclesKeep(w, before);
    StartFits(u, c);
    var s := Start(u, c);
    var got := Call(s, GetCr);
    QuietCallGet(s);
    IdleCall(s, GetCr);
    assert HeldUntilDone(u.log, |u.log|) by { NothingHeldYet(u.log); }
    IdleHolds(s, got.s, |u.log|);
    HandlingHolds(got.s.(cr := got.reply.cr), |u.log|);
  }

  lemma NothingHeldYet(log: seq<Entry>)
    ensures HeldUntilDone(log, |log|)
  {
  }
}
