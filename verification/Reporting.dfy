/** What a cycle tells the custom resource's status, how often it tries, and what it asks of the queue. */
module Reporting {
  import opened Basics
  import opened Conditions
  import opened Kube
  import opened Objects
  import opened StatusUpdater
  import opened Uninstall
  import opened Finalizer
  import opened CollectLogs
  import opened Reconciler
  import opened CycleEffects
  import opened StageEffects
  import Management
  import Protocol

  // ---- the two retry loops, entry by entry -------------------------------------------------------

  /** These entries are attempts to store this status: a write of it over the copy in hand, and after a conflict a read,
      and attempts over what was read. */
  ghost predicate StatusAttempts(entries: seq<Entry>, cr: Cr, status: CrStatus)
    decreases |entries|
  {
    && (|entries| > 0 ==> entries[0].request == UpdateStatus(cr.(status := status)))
    && (|entries| > 1 ==> entries[0].reply == Fails(Conflict) && entries[1].request == GetCr)
    && (|entries| > 2 ==> entries[1].reply.CrIs? && StatusAttempts(entries[2..], entries[1].reply.cr, status))
  }

  /** What the last entry amounts to. */
  ghost predicate EndsAs(entries: seq<Entry>, limit: nat, flow: Flow)
  {
    flow.Return? ==>
      && entries != []
      && var last := entries[|entries| - 1].reply;
         && (last.CrIs? || last == Fails(NotFound) ==> flow == OK)
         && (last.Fails? && last.error != NotFound ==> flow == Fail(last.error))
         && (last.CrIs? || last.Fails?)
         && (last == Fails(Conflict) ==> |entries| == limit)
  }

  lemma ReadsNeverConflict(s: Sys)
    ensures Call(s, GetCr).reply != Fails(Conflict)
  {
  }

  /** What was logged from s to t. */
  function Since(s: Sys, t: Sys): seq<Entry>
    requires s.w.log <= t.w.log
  {
    t.w.log[|s.w.log|..]
  }

  lemma {:induction false} WriteStatusAttempts(s: Sys, status: CrStatus, attempts: nat)
    requires attempts > 0
    ensures var r := WriteStatus(s, status, attempts);
      && s.w.log <= r.s.w.log && |Since(s, r.s)| < 2 * attempts
      && StatusAttempts(Since(s, r.s), s.cr, status) && EndsAs(Since(s, r.s), 2 * attempts - 1, r.flow)
    decreases attempts
  {
    hide Call;
    var n := |s.w.log|;
    var ready := WithStatus(s, status);
    var q := UpdateStatus(ready.cr);
    var a := Call(ready, q);
    OneMoreEntry(ready, q);
    OneEntry(ready, q);
    AnswersFit(ready, q);
    var r := WriteStatus(s, status, attempts);
    if a.reply == Fails(Conflict) && attempts > 1 {
      var got := Call(a.s, GetCr);
      OneMoreEntry(a.s, GetCr);
      OneEntry(a.s, GetCr);
      AnswersFit(a.s, GetCr);
      ReadsNeverConflict(a.s);
      if got.reply.CrIs? {
        var t := got.s.(cr := got.reply.cr);
        WriteStatusAttempts(t, status, attempts - 1);
        assert r == WriteStatus(t, status, attempts - 1);
        assert Since(s, r.s)[2..] == Since(t, r.s);
        assert Since(s, r.s)[0] == a.s.w.log[n] && Since(s, r.s)[1] == got.s.w.log[n + 1];
      }
    }
  }

  /** Storing a status: a write over the copy in hand; while the answer is a conflict, a read and another write of the
      same status over what was read, five writes at most. Any other answer ends it, and is what it reports. */
  lemma StatusIsTriedFiveTimes(s: Sys)
    ensures var r := PushStatus(s);
      && s.w.log <= r.s.w.log && |Since(s, r.s)| <= 9
      && StatusAttempts(Since(s, r.s), s.cr, s.cr.status) && EndsAs(Since(s, r.s), 9, r.flow)
  {
    hide WriteStatus;
    WriteStatusAttempts(s, s.cr.status, 5);
  }

  /** These entries are attempts to restart this object: a read, a write of what was read with nothing but the restart
      annotation set, bound to the version read, and after a conflict attempts over again. */
  ghost predicate RestartAttempts(entries: seq<Entry>, key: Key)
    decreases |entries|
  {
    && (|entries| > 0 ==> entries[0].request == GetObject(key))
    && (|entries| > 1 ==>
         && entries[0].reply.ObjectIs?
         && var read := entries[0].reply.stored;
            && entries[1].request.UpdateObject? && entries[1].request.version == Some(read.version)
            && entries[1].request.manifest.key == key
            && var written := entries[1].request.manifest.fields;
               && written == read.fields.(entries := written.entries)
               && written.entries.Keys == read.fields.entries.Keys + {"operator.nvmesh.excelero.com/restartedAt"}
               && forall k :: k in read.fields.entries && k != "operator.nvmesh.excelero.com/restartedAt" ==>
                    written.entries[k] == read.fields.entries[k])
    && (|entries| > 2 ==> entries[1].reply == Fails(Conflict) && RestartAttempts(entries[2..], key))
  }

  /** What the last entry amounts to. */
  ghost predicate RestartEndsAs(entries: seq<Entry>, limit: nat, flow: Flow)
  {
    flow.Return? ==>
      && entries != []
      && var last := entries[|entries| - 1].reply;
         && (last == Done <==> flow == OK)
         && (last.Fails? ==> flow == Fail(last.error))
         && (last == Done || last.Fails?)
         && (last == Fails(Conflict) ==> |entries| == limit)
  }

  lemma LookupsNeverConflict(s: Sys, key: Key)
    ensures Call(s, GetObject(key)).reply != Fails(Conflict)
  {
  }

  lemma {:induction false} RestartTries(s: Sys, key: Key, attempts: nat)
    requires attempts > 0
    ensures var r := Restart(s, key, attempts);
      && s.w.log <= r.s.w.log && |Since(s, r.s)| <= 2 * attempts
      && RestartAttempts(Since(s, r.s), key) && RestartEndsAs(Since(s, r.s), 2 * attempts, r.flow)
    decreases attempts
  {
    hide Call, TimeText;
    var n := |s.w.log|;
    var found := Call(s, GetObject(key));
    OneMoreEntry(s, GetObject(key));
    OneEntry(s, GetObject(key));
    AnswersFit(s, GetObject(key));
    LookupsNeverConflict(s, key);
    if found.reply.ObjectIs? {
      var q := UpdateObject(Manifest(key, Annotated(found.reply.stored.fields, TimeText(found.s.w.now))),
                            Some(found.reply.stored.version));
      var written := Call(found.s, q);
      OneMoreEntry(found.s, q);
      OneEntry(found.s, q);
      AnswersFit(found.s, q);
      var r := Restart(s, key, attempts);
      if written.reply == Fails(Conflict) && attempts > 1 {
        RestartTries(written.s, key, attempts - 1);
        assert r == Restart(written.s, key, attempts - 1);
        assert Since(s, r.s)[2..] == Since(written.s, r.s);
        assert Since(s, r.s)[0] == found.s.w.log[n] && Since(s, r.s)[1] == written.s.w.log[n + 1];
      }
    }
  }

  /** A management configuration that was stored is followed by a restart of management's server, tried four times at most;
      one that could not be stored is not. Neither failure is reported. */
  lemma ConfigIsFollowedByRestart(s: Sys, m: Manifest)
    ensures var r := Apply(s, m.key, WriteAndRestart(m.fields)); var a := Call(s, UpdateObject(m, None));
      && (r.flow.Killed? || r.flow == OK) && (a.reply.Silence? ==> r == Ran(a.s, Killed))
      && (a.reply.Fails? ==> r == Ran(a.s, OK))
      && (a.reply == Done ==>
            && a.s.w.log <= r.s.w.log && |Since(a.s, r.s)| <= 8
            && RestartAttempts(Since(a.s, r.s), Key("StatefulSet", "nvmesh-management"))
            && (r.flow == OK ==> RestartEndsAs(Since(a.s, r.s), 8, Restart(a.s, Key("StatefulSet", "nvmesh-management"), 4).flow)))
  {
    hide Call, Restart, RestartAttempts;
    var a := Call(s, UpdateObject(m, None));
    AnswersFit(s, UpdateObject(m, None));
    RestartTries(a.s, MGMT_STATEFUL_SET, 4);
  }

  // ---- reports -----------------------------------------------------------------------------------

  /** The first condition of this kind says so. */
  ghost predicate Says(list: seq<Condition>, kind: string, status: Status, reason: string)
  {
    exists i :: 0 <= i < |list| && list[i].kind == kind && list[i].status == status && list[i].reason == reason
      && forall j :: 0 <= j < i ==> list[j].kind != kind
  }

  /** The conditions of other kinds are as before, in the same order. */
  ghost predicate OthersKept(before: seq<Condition>, after: seq<Condition>, kind: string)
  {
    && |before| <= |after| && (forall i :: 0 <= i < |before| && before[i].kind != kind ==> after[i] == before[i])
    && forall i :: 0 <= i < |after| && (i < |before| ==> before[i].kind == kind) ==> after[i].kind == kind
  }

  lemma ConditionIsSet(list: seq<Condition>, c: Condition, now: nat)
    ensures var after := Set(list, c, now); Says(after, c.kind, c.status, c.reason) && OthersKept(list, after, c.kind)
  {
    var after := Set(list, c, now);
    var i := Find(list, c.kind);
    assert after[i].kind == c.kind && after[i].status == c.status && after[i].reason == c.reason;
  }

  lemma OtherStillSays(list: seq<Condition>, c: Condition, now: nat, kind: string, status: Status, reason: string)
    requires Says(list, kind, status, reason) && c.kind != kind
    ensures Says(Set(list, c, now), kind, status, reason)
  {
    var after := Set(list, c, now);
    ConditionIsSet(list, c, now);
    var i :| 0 <= i < |list| && list[i].kind == kind && list[i].status == status && list[i].reason == reason
      && forall j :: 0 <= j < i ==> list[j].kind != kind;
    assert after[i] == list[i];
    forall j | 0 <= j < i ensures after[j].kind != kind {}
  }

  /** The status write that reports this: Ready as given, the other conditions and the tasks as they were, and no more. */
  ghost predicate Tells(cr: Cr, told: Cr, status: Status, reason: string)
  {
    && told == cr.(status := told.status) && told.status.actions == cr.status.actions
    && Says(told.status.conditions, "Ready", status, reason)
    && OthersKept(cr.status.conditions, told.status.conditions, "Ready")
  }

  /** The report of a success or a trouble from s to t: attempts to store it, and the given result if the last one was
      answered or found the resource gone, else another cycle in a second. */
  ghost predicate Reports(s: Sys, r: Ran, status: Status, reason: string, result: Result)
  {
    && s.w.log <= r.s.w.log
    && var entries := Since(s, r.s);
       && |entries| <= 9 && (r.flow.Return? ==> entries != [])
       && (exists told :: Tells(s.cr, told, status, reason) && StatusAttempts(entries, s.cr, told.status))
       && (r.flow.Return? ==>
             var last := entries[|entries| - 1].reply;
             r.flow == Return(if last.CrIs? || last == Fails(NotFound) then result else Result(true, 1), None))
  }

  lemma ReportedExactly(s: Sys, status: Status, reason: string, result: Result)
    ensures Reports(s, Reported(PushStatus(WithCondition(s, Ready(status, reason))), result), status, reason, result)
  {
    hide PushStatus, StatusAttempts, Set;
    var c := Ready(status, reason);
    var t := WithCondition(s, c);
    ConditionIsSet(s.cr.status.conditions, c, s.w.now);
    StatusIsTriedFiveTimes(t);
    assert Tells(s.cr, t.cr, status, reason);
    SameAttempts(Since(t, PushStatus(t).s), t.cr, s.cr, t.cr.status);
  }

  lemma SameAttempts(entries: seq<Entry>, cr: Cr, other: Cr, status: CrStatus)
    requires StatusAttempts(entries, cr, status) && cr == other.(status := cr.status)
    ensures StatusAttempts(entries, other, status)
  {
  }

  /** What is called a reason: the gate and the action have their own words, everything else is just an error. */
  predicate Reason(issue: Error, text: string)
  {
    && (issue == VolumesInUse ==> text == "Cannot delete NVMesh cluster while volumes are in use")
    && (issue == UnknownAction ==> text == "Unknown Action")
    && (issue == Invalid ==> text == "Validation failed")
    && (issue !in {VolumesInUse, UnknownAction, Invalid} ==> text == "error")
  }

  /** A trouble is reported by Ready being false, with its reason; a success by Ready being true, without one. */
  lemma TroubleAndSuccess(s: Sys, issue: Error, result: Result)
    ensures Reports(s, Succeed(s, result), True, "", result)
    ensures exists text :: Reason(issue, text) && Reports(s, Complain(s, issue, result), False, text, result)
  {
    hide Reports, PushStatus, Reported, Reason, ErrorText;
    ReportedExactly(s, True, "", result);
    ReportedExactly(s, False, ErrorText(issue), result);
    ItsReason(issue);
  }

  lemma ItsReason(issue: Error)
    ensures Reason(issue, ErrorText(issue))
  {
  }

  // ---- deleting ----------------------------------------------------------------------------------

  lemma ProgressConditions(s: Sys)
    ensures var told := Uninstalls(s).cr;
      && told == s.cr.(status := told.status) && told.status.actions == s.cr.status.actions
      && Says(told.status.conditions, "Ready", False, "") && Says(told.status.conditions, "Uninstalling", True, "")
  {
    hide Set;
    var ready := WithCondition(s, Ready(False, ""));
    ConditionIsSet(s.cr.status.conditions, Ready(False, ""), s.w.now);
    var going := Condition("Uninstalling", True, 0, "", "");
    ConditionIsSet(ready.cr.status.conditions, going, s.w.now);
    assert "Uninstalling"[0] == 'U' && "Ready"[0] == 'R';
    OtherStillSays(ready.cr.status.conditions, going, s.w.now, "Ready", False, "");
  }

  /** With the gate open, an uninstall that stops with an error ends there; one that waits writes its tasks once, as not
      ready and uninstalling, and waits on whatever becomes of the write; one that is done, or is to be skipped, writes the
      resource without the operator's finalizer and reports what becomes of that. */
  lemma DeletionProceeds(s: Sys)
    requires AllowedToDelete(s).flow == OK
    ensures var open := AllowedToDelete(s).s; var down := TakeDown(open); var r := BeforeDeleting(s);
      && (open.cr.spec.skipUninstall ==> down == Ran(open, OK))
      && (down.flow.Killed? || down.flow.err.Some? ==> r == down)
      && (down.flow.Return? && down.flow.err.None? && down.flow.result.requeue ==>
            exists told: Cr, t: Sys ::
              && t == down.s.(cr := told) && told == down.s.cr.(status := told.status)
              && told.status.actions == down.s.cr.status.actions
              && Says(told.status.conditions, "Ready", False, "") && Says(told.status.conditions, "Uninstalling", True, "")
              && var a := Call(t, UpdateStatus(told));
                 && r.s == (if a.reply.CrIs? then a.s.(cr := a.reply.cr) else a.s)
                 && r.flow == (if a.reply.Silence? then Killed else down.flow))
      && (down.flow.Return? && down.flow.err.None? && !down.flow.result.requeue ==>
            exists freed: Cr, t: Sys ::
              && t == down.s.(cr := freed) && freed == down.s.cr.(finalizers := freed.finalizers)
              && (forall f :: f in freed.finalizers <==>
                    f in down.s.cr.finalizers && f != "cluster.finalizers.nvmesh.excelero.com")
              && var a := Call(t, UpdateCr(freed));
                 && r.s == (if a.reply.CrIs? then a.s.(cr := a.reply.cr) else a.s)
                 && r.flow == (if a.reply.Silence? then Killed else if a.reply.Fails? then Fail(a.reply.error) else OK))
  {
    hide AllowedToDelete, RunStages, Call, Says, RemoveString, Uninstalls;
    var down := TakeDown(AllowedToDelete(s).s);
    var t := Uninstalls(down.s);
    ProgressConditions(down.s);
    SameButCopy(down.s);
    var gone := RemoveString(down.s.cr.finalizers, CLUSTER_FINALIZER);
    Protocol.RemovedStringIsGone(down.s.cr.finalizers, CLUSTER_FINALIZER);
    var u := WithFinalizers(down.s, gone);
    AnswersFit(t, UpdateStatus(t.cr));
    AnswersFit(u, UpdateCr(u.cr));
    assert t == down.s.(cr := t.cr) && u == down.s.(cr := u.cr);
  }

  lemma SameButCopy(s: Sys)
    ensures Uninstalls(s) == s.(cr := Uninstalls(s).cr)
  {
  }

  // ---- the cycle ---------------------------------------------------------------------------------

  /** A resource that is gone ends the cycle; one that cannot be read is looked at again in a second. Nothing else is asked
      for then. */
  lemma NothingToRead(s: Sys)
    ensures var a := Call(s, GetCr);
      && (a.reply == Fails(NotFound) ==> Reconcile(s) == Ran(a.s, OK))
      && (a.reply.Fails? && a.reply.error != NotFound ==> Reconcile(s) == Ran(a.s, Return(Result(true, 1), None)))
      && (a.reply.Silence? ==> Reconcile(s) == Ran(a.s, Killed))
  {
    hide Call;
  }

  /** An external mongo without an address is only reported. So is trouble with the service account, and trouble with the
      finalizer or behind it: each is retried at once. An uninstall that waits is reported as success with its delay. */
  lemma TroubleIsReported(s: Sys)
    ensures var account := EnsureServiceAccount(s); var fin := HandleFinalizer(account.s);
      if s.cr.spec.mongoExternal && s.cr.spec.mongoAddress == "" then
        Reports(s, Handle(s), False, "Validation failed", Result(true, 0))
      else if account.flow.Killed? then Handle(s) == account
      else if account.flow.err.Some? then
        exists text :: Reason(account.flow.err.value, text) && Reports(account.s, Handle(s), False, text, Result(true, 0))
      else if fin.flow.Killed? then Handle(s) == fin
      else if fin.flow.err.Some? then
        exists text :: Reason(fin.flow.err.value, text) && Reports(fin.s, Handle(s), False, text, Result(true, 0))
      else fin.flow.result.requeue ==> Reports(fin.s, Handle(s), True, "", fin.flow.result)
  {
    hide EnsureServiceAccount, HandleFinalizer, Converge, Complain, Succeed, Reports;
    ReportedInvalid(s);
    var account := EnsureServiceAccount(s);
    var fin := HandleFinalizer(account.s);
    if account.flow.Return? && account.flow.err.Some? { TroubleAndSuccess(account.s, account.flow.err.value, Requeue(0)); }
    if fin.flow.Return? {
      TroubleAndSuccess(fin.s, if fin.flow.err.Some? then fin.flow.err.value else Invalid, Requeue(0));
      TroubleAndSuccess(fin.s, Invalid, fin.flow.result);
    }
  }

  lemma ReportedInvalid(s: Sys)
    ensures Reports(s, Complain(s, Invalid, Requeue(0)), False, "Validation failed", Result(true, 0))
  {
    hide Reports, PushStatus, Reported;
    ReportedExactly(s, False, ErrorText(Invalid), Requeue(0));
  }

  /** What the three components come to: nobody's death or delay survives, a requeue of any is a requeue at once, and the
      error is management's, else core's, else CSI's. */
  lemma ComponentsComeTo(s: Sys)
    ensures var mgmt := Management.ReconcileManagement(s);
      var core := ReconcileDir(mgmt.s, mgmt.s.w.res.coreComponent, mgmt.s.w.res.core, mgmt.s.cr.spec.coreDisabled);
      var csi := ReconcileDir(core.s, core.s.w.res.csiComponent, core.s.w.res.csi, core.s.cr.spec.csiDisabled);
      var r := ReconcileAll(s);
      && (mgmt.flow.Killed? ==> r == mgmt)
      && (mgmt.flow.Return? && core.flow.Killed? ==> r == core)
      && (mgmt.flow.Return? && core.flow.Return? && csi.flow.Killed? ==> r == csi)
      && (mgmt.flow.Return? && core.flow.Return? && csi.flow.Return? ==>
            && r.s == csi.s && r.flow.Return? && r.flow.result.after == 0
            && (r.flow.result.requeue <==> mgmt.flow.result.requeue || core.flow.result.requeue || csi.flow.result.requeue)
            && (mgmt.flow.err.Some? ==> r.flow.err == mgmt.flow.err)
            && (mgmt.flow.err.None? && core.flow.err.Some? ==> r.flow.err == core.flow.err)
            && (mgmt.flow.err.None? && core.flow.err.None? ==> r.flow.err == csi.flow.err))
  {
    hide ReconcileDir, Management.ReconcileManagement;
  }

  /** Management: mongo first, deployed exactly if management is enabled and the database is not an external one. Trouble
      there is reported with another cycle in a second and ends it; otherwise a disabled management is removed, and an
      enabled one looks at the database. */
  lemma MongoComesFirst(s: Sys)
    ensures var res := s.w.res; var spec := s.cr.spec;
      var mongo := ReconcileDir(s, res.mgmtComponent, res.mongo, spec.mgmtDisabled || spec.mongoExternal);
      var r := Management.ReconcileManagement(s);
      && (mongo.flow.Killed? ==> r == mongo)
      && (mongo.flow.Return? && mongo.flow.err.Some? ==> r == Ran(mongo.s, Return(Result(true, 1), mongo.flow.err)))
      && (mongo.flow == OK && spec.mgmtDisabled ==> r == ReconcileDir(mongo.s, res.mgmtComponent, res.mgmt, true))
      && (mongo.flow == OK && !spec.mgmtDisabled ==>
            var found := Call(mongo.s, FindSettings).reply;
            && (found.Silence? ==> r.flow.Killed?)
            && (found.Fails? ==> r.flow.Killed? || r.flow.result.requeue)
            && (found.SettingsAre? && r.flow == OK ==>
                  var settled := Management.HandleDb(mongo.s).s;
                  r == ReconcileDir(settled, settled.w.res.mgmtComponent, settled.w.res.mgmt, false)))
  {
    hide ReconcileDir, Call, Management.SyncSettings;
    DirPlain(s, s.w.res.mgmtComponent, s.w.res.mongo, s.cr.spec.mgmtDisabled || s.cr.spec.mongoExternal);
  }

  // ---- single objects ----------------------------------------------------------------------------

  /** Removing one object: looked up first. Missing is fine, an unknown kind only for security constraints; what is found is
      deleted, and then nothing but an answer is fine, not even that it was gone. */
  lemma RemovalComesTo(s: Sys, key: Key)
    ensures var found := Call(s, GetObject(key)); var gone := Call(found.s, DeleteObject(key)); var r := RemoveObject(s, key);
      && (found.reply.Silence? ==> r == Ran(found.s, Killed))
      && (found.reply.Fails? ==>
            && r.s == found.s
            && (r.flow == OK <==>
                  found.reply.error == NotFound || (found.reply.error == NoKindMatch && key.kind == "SecurityContextConstraints"))
            && (r.flow != OK ==> r.flow == Fail(found.reply.error)))
      && (found.reply.ObjectIs? ==>
            && r.s == gone.s && (r.flow == OK <==> gone.reply == Done)
            && (gone.reply.Fails? ==> r.flow == Fail(gone.reply.error)) && (gone.reply.Silence? ==> r.flow.Killed?))
  {
    hide Call;
    AnswersFit(s, GetObject(key));
    AnswersFit(Call(s, GetObject(key)).s, DeleteObject(key));
  }

  /** Ensuring one object: refused by its component, nothing is asked for. Otherwise it is looked up, created if it is
      missing, somebody else having created it being fine, and written if the component wants it; every other error is
      reported. */
  lemma EnsuringComesTo(s: Sys, component: Component, m: Manifest)
    ensures var r := EnsureObject(s, Some(component), m); var wanted := component.init(s.cr.spec, m);
      if wanted.None? then r == Ran(s, Fail(Rejected))
      else
        var found := Call(s, GetObject(m.key));
        && (found.reply.Silence? ==> r == Ran(found.s, Killed))
        && (found.reply.Fails? && found.reply.error != NotFound ==> r == Ran(found.s, Fail(found.reply.error)))
        && (found.reply == Fails(NotFound) ==>
              var made := Call(found.s, CreateObject(Manifest(m.key, wanted.value)));
              && r.s == made.s
              && (r.flow == OK <==> made.reply == Done || made.reply == Fails(AlreadyExists))
              && (r.flow.Return? && r.flow != OK ==> made.reply.Fails? && r.flow == Fail(made.reply.error)))
        && (found.reply.ObjectIs? ==>
              var plan := component.plan(s.cr.spec, Manifest(m.key, wanted.value), found.reply.stored.fields);
              && (plan.Leave? ==> r == Ran(found.s, OK))
              && (plan.Write? ==>
                    var written := Call(found.s, UpdateObject(Manifest(m.key, plan.fields), None));
                    && r.s == written.s && (r.flow == OK <==> written.reply == Done)
                    && (written.reply.Fails? ==> r.flow == Fail(written.reply.error)))
              && (plan.WriteAndRestart? ==> r == Apply(found.s, m.key, plan)))
  {
    hide Call, WriteThenRestart;
    var found := Call(s, GetObject(m.key));
    AnswersFit(s, GetObject(m.key));
    var wanted := component.init(s.cr.spec, m);
    if wanted.Some? {
      AnswersFit(found.s, CreateObject(Manifest(m.key, wanted.value)));
      if found.reply.ObjectIs? {
        var plan := component.plan(s.cr.spec, Manifest(m.key, wanted.value), found.reply.stored.fields);
        if plan.Write? { AnswersFit(found.s, UpdateObject(Manifest(m.key, plan.fields), None)); }
      }
    }
  }

  /** Behind the finalizer: a requeue of the components ends the cycle with that result, reported first if there is an
      error; without one the actions follow, and the cycle ends in a report: trouble with the result of the action that
      failed, success with the delay of the one that waits, success without another cycle if nothing is left to do. */
  lemma ConvergenceIsReported(s: Sys)
    ensures var all := ReconcileAll(s); var r := Converge(s);
      && (all.flow.Killed? ==> r == all)
      && (all.flow.Return? && all.flow.result.requeue && all.flow.err.None? ==> r == all)
      && (all.flow.Return? && all.flow.result.requeue && all.flow.err.Some? ==>
            exists told: Ran, text ::
              && Reason(all.flow.err.value, text) && Reports(all.s, told, False, text, all.flow.result)
              && r == Ran(told.s, if told.flow.Killed? then Killed else Return(all.flow.result, None)))
      && (all.flow.Return? && !all.flow.result.requeue ==>
            var swept := DropStale(all.s); var acted := HandleActions(swept.s, swept.s.cr.spec.actions, 0);
            if swept.flow.Killed? then r == swept
            else if swept.flow.result.requeue then Reports(swept.s, r, True, "", swept.flow.result)
            else if acted.flow.Killed? then r == acted
            else if acted.flow.err.Some? then
              exists text :: Reason(acted.flow.err.value, text) && Reports(acted.s, r, False, text, acted.flow.result)
            else Reports(acted.s, r, True, "", if acted.flow.result.requeue then acted.flow.result else Result(false, 0)))
  {
    hide ReconcileAll, DropStale, HandleActions, Complain, Succeed, Reports;
    var all := ReconcileAll(s);
    if all.flow.Return? {
      TroubleAndSuccess(all.s, if all.flow.err.Some? then all.flow.err.value else Invalid, all.flow.result);
    }
    var swept := DropStale(all.s);
    if swept.flow.Return? { TroubleAndSuccess(swept.s, Invalid, swept.flow.result); }
    var acted := HandleActions(swept.s, swept.s.cr.spec.actions, 0);
    if acted.flow.Return? {
      TroubleAndSuccess(acted.s, if acted.flow.err.Some? then acted.flow.err.value else Invalid, acted.flow.result);
      TroubleAndSuccess(acted.s, Invalid, DO_NOT_REQUEUE);
    }
  }
}
