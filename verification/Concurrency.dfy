/** The two retry loops against arbitrary concurrent writers: what they store, and that nobody else's write
    is lost. */
module Concurrency {
  import opened Basics
  import opened Kube
  import opened CoreConfigMap
  import opened Objects
  import opened StatusUpdater

  /** The same stretch of time without the operator: only the moves of the others. */
  function OthersOnly(w: World, ticks: seq<Tick>): World
    decreases |ticks|
  {
    if ticks == [] then w else OthersOnly(EnvRun(w, ticks[0].steps), ticks[1..])
  }

  /** The ticks a stretch of requests used up: one per entry in the log. */
  function Used(s: Sys, t: Sys): seq<Tick>
    requires |s.w.log| <= |t.w.log| && |t.w.log| - |s.w.log| <= |s.ticks|
  {
    s.ticks[..|t.w.log| - |s.w.log|]
  }

  lemma {:induction false} OthersInTurn(w: World, ticks: seq<Tick>, more: seq<Tick>)
    ensures OthersOnly(w, ticks + more) == OthersOnly(OthersOnly(w, ticks), more)
    decreases |ticks|
  {
    if ticks == [] {
      assert ticks + more == more;
    } else {
      assert (ticks + more)[1..] == ticks[1..] + more;
      OthersInTurn(EnvRun(w, ticks[0].steps), ticks[1..], more);
    }
  }

  /** A request uses one tick and writes one entry, unless the script is over. */
  lemma CallUses(s: Sys, q: Request)
    ensures var t := Call(s, q).s;
      if s.ticks == [] then t == s
      else |t.w.log| == |s.w.log| + 1 && (t.ticks == s.ticks[1..] || t.ticks == [])
  {
    if s.ticks != [] { EnvWritesNoLog(s.w, s.ticks[0].steps); }
  }

  // ---- the custom resource's status ------------------------------------------------------------

  /** Everything about the stored resource that is not its status. */
  datatype Wanted = Wanted(spec: Spec, finalizers: seq<string>, deleting: bool)

  function Desired(w: World): Option<Wanted>
  {
    if w.cr.None? then None else Some(Wanted(w.cr.value.spec, w.cr.value.finalizers, w.cr.value.deleting))
  }

  /** A stored resource marked for deletion has a finalizer left. */
  predicate Alive(w: World)
  {
    w.cr.Some? && w.cr.value.deleting ==> w.cr.value.finalizers != []
  }

  lemma StoringOnDesired(w: World, v: World, c: Cr, d: Cr)
    requires c.spec == d.spec && c.finalizers == d.finalizers && c.deleting == d.deleting
    ensures Desired(StoreCr(w, c)) == Desired(StoreCr(v, d)) && Alive(StoreCr(w, c))
  {
  }

  lemma OneMoveOnDesired(w: World, v: World, e: EnvStep)
    requires Desired(w) == Desired(v) && Alive(w)
    ensures Desired(EnvStepped(w, e)) == Desired(EnvStepped(v, e)) && Alive(EnvStepped(w, e))
  {
    hide Managed, StoreCr;
    if w.cr.Some? {
      var c, d := w.cr.value, v.cr.value;
      match e
      case SpecEdited(spec) => StoringOnDesired(w, v, c.(spec := spec), d.(spec := spec));
      case FinalizersEdited(fs) => StoringOnDesired(w, v, c.(finalizers := fs), d.(finalizers := fs));
      case DeletionRequested => StoringOnDesired(w, v, c.(deleting := true), d.(deleting := true));
      case _ =>
    }
  }

  lemma {:induction false} OthersSeeOnlyDesired(w: World, v: World, steps: seq<EnvStep>)
    requires Desired(w) == Desired(v) && Alive(w)
    ensures Desired(EnvRun(w, steps)) == Desired(EnvRun(v, steps)) && Alive(EnvRun(w, steps))
    decreases |steps|
  {
    hide EnvStepped;
    if steps != [] {
      OneMoveOnDesired(w, v, steps[0]);
      OthersSeeOnlyDesired(EnvStepped(w, steps[0]), EnvStepped(v, steps[0]), steps[1..]);
    }
  }

  lemma StatusCallKeepsDesired(s: Sys, q: Request, v: World)
    requires s.ticks != [] && (q.GetCr? || q.UpdateStatus?) && Desired(s.w) == Desired(v) && Alive(s.w)
    ensures Desired(Call(s, q).s.w) == Desired(OthersOnly(v, s.ticks[..1])) && Alive(Call(s, q).s.w)
  {
    OthersSeeOnlyDesired(s.w, v, s.ticks[0].steps);
    assert s.ticks[..1][0] == s.ticks[0] && s.ticks[..1][1..] == [];
    assert OthersOnly(v, s.ticks[..1]) == EnvRun(v, s.ticks[0].steps);
  }

  /** From s to t nobody but the others touched anything but the status. */
  ghost predicate OnlyStatusWritten(s: Sys, t: Sys)
  {
    && |s.w.log| <= |t.w.log| && |t.w.log| - |s.w.log| <= |s.ticks|
    && (t.ticks == [] || t.ticks == s.ticks[|t.w.log| - |s.w.log|..])
    && Desired(t.w) == Desired(OthersOnly(s.w, Used(s, t))) && Alive(t.w)
  }

  lemma StatusCall(s: Sys, q: Request)
    requires (q.GetCr? || q.UpdateStatus?) && Alive(s.w)
    ensures OnlyStatusWritten(s, Call(s, q).s)
  {
    CallUses(s, q);
    if s.ticks != [] { StatusCallKeepsDesired(s, q, s.w); }
  }

  lemma {:induction false} OthersFromEqualDesired(w: World, v: World, ticks: seq<Tick>)
    requires Desired(w) == Desired(v) && Alive(w)
    ensures Desired(OthersOnly(w, ticks)) == Desired(OthersOnly(v, ticks))
    decreases |ticks|
  {
    if ticks != [] {
      OthersSeeOnlyDesired(w, v, ticks[0].steps);
      OthersFromEqualDesired(EnvRun(w, ticks[0].steps), EnvRun(v, ticks[0].steps), ticks[1..]);
    }
  }

  lemma StatusWritesCompose(r: Sys, s: Sys, t: Sys)
    requires OnlyStatusWritten(r, s) && OnlyStatusWritten(s, t) && Alive(s.w)
    ensures OnlyStatusWritten(r, t)
  {
    if |t.w.log| > |s.w.log| {
      var m, n := |s.w.log| - |r.w.log|, |t.w.log| - |r.w.log|;
      assert s.ticks == r.ticks[m..];
      assert r.ticks[..n] == r.ticks[..m] + s.ticks[..n - m];
      OthersInTurn(r.w, r.ticks[..m], s.ticks[..n - m]);
      OthersFromEqualDesired(s.w, OthersOnly(r.w, r.ticks[..m]), s.ticks[..n - m]);
    } else {
      assert Used(s, t) == [];
    }
  }

  lemma StatusStored(s: Sys)
    ensures var a := Call(s, UpdateStatus(s.cr));
      && (a.reply.CrIs? && a.s.w.cr.Some? ==> a.s.w.cr.value.status == s.cr.status)
      && (a.reply == Fails(NotFound) ==> a.s.w.cr.None?)
      && (Call(s, GetCr).reply == Fails(NotFound) ==> Call(s, GetCr).s.w.cr.None?)
  {
  }

  lemma {:induction false} WriteStatusIsSafe(s: Sys, status: CrStatus, attempts: nat)
    requires Alive(s.w)
    ensures var r := WriteStatus(s, status, attempts);
      && OnlyStatusWritten(s, r.s)
      && (r.flow == OK ==> r.s.w.cr.None? || r.s.w.cr.value.status == status)
    decreases attempts, 0
  {
    hide Call, OnlyStatusWritten;
    var ready := WithStatus(s, status);
    var a := Call(ready, UpdateStatus(ready.cr));
    StatusCall(ready, UpdateStatus(ready.cr));
    StatusStored(ready);
    AnswersFit(ready, UpdateStatus(ready.cr));
    SameStretch(ready, s, a.s, a.s);
    if a.reply.CrIs? { SameStretch(ready, s, a.s, a.s.(cr := a.reply.cr)); }
    if a.reply == Fails(Conflict) && attempts > 1 {
      RereadIsSafe(a.s, status, attempts - 1);
      StatusWritesCompose(s, a.s, RereadAndWrite(a.s, status, attempts - 1).s);
    }
  }

  lemma SameStretch(r: Sys, s: Sys, t: Sys, u: Sys)
    requires r.w == s.w && r.ticks == s.ticks && t.w == u.w && t.ticks == u.ticks
    ensures OnlyStatusWritten(r, t) <==> OnlyStatusWritten(s, u)
  {
  }

  lemma {:induction false} RereadIsSafe(s: Sys, status: CrStatus, attempts: nat)
    requires Alive(s.w)
    ensures var r := RereadAndWrite(s, status, attempts);
      && OnlyStatusWritten(s, r.s)
      && (r.flow == OK ==> r.s.w.cr.None? || r.s.w.cr.value.status == status)
    decreases attempts, 1
  {
    hide Call;
    var a := Call(s, GetCr);
    StatusCall(s, GetCr);
    StatusStored(s);
    AnswersFit(s, GetCr);
    if a.reply.CrIs? {
      var t := a.s.(cr := a.reply.cr);
      WriteStatusIsSafe(t, status, attempts);
      StatusWritesCompose(s, t, WriteStatus(t, status, attempts).s);
    }
  }

  /** UpdateStatus under any interleaving: success means the resource is gone or holds the caller's status
      at entry; and in every case spec, finalizers and deletion mark are what the others alone made them. */
  lemma UpdateStatusIsSafe(s: Sys)
    requires Alive(s.w)
    ensures var r := PushStatus(s);
      && (r.flow == OK ==> r.s.w.cr.None? || r.s.w.cr.value.status == s.cr.status)
      && |s.w.log| <= |r.s.w.log| && |r.s.w.log| - |s.w.log| <= |s.ticks|
      && Desired(r.s.w) == Desired(OthersOnly(s.w, Used(s, r.s)))
  {
    WriteStatusIsSafe(s, s.cr.status, STATUS_ATTEMPTS);
  }

  // ---- restarting a StatefulSet ----------------------------------------------------------------

  function Unannotated(fields: Fields): Fields
  {
    fields.(entries := fields.entries - {RESTART_ANNOTATION})
  }

  /** An object without its restart annotation. */
  function Content(w: World, key: Key): Option<Fields>
  {
    if key in w.objs then Some(Unannotated(w.objs[key].fields)) else None
  }

  /** Versions come from one counter. */
  ghost predicate Counted(w: World)
  {
    forall k :: k in w.objs ==> w.objs[k].version <= w.revision
  }

  lemma {:induction false} OthersCount(w: World, steps: seq<EnvStep>, key: Key)
    requires Counted(w)
    ensures var v := EnvRun(w, steps);
      && Counted(v) && w.revision <= v.revision
      && (key in v.objs && v.objs[key].version <= w.revision ==> key in w.objs && v.objs[key] == w.objs[key])
    decreases |steps|
  {
    if steps != [] {
      OthersCount(EnvStepped(w, steps[0]), steps[1..], key);
    }
  }

  lemma {:induction false} OthersSeeOnlyContent(w: World, v: World, steps: seq<EnvStep>, key: Key)
    requires Content(w, key) == Content(v, key) && w.res == v.res
    ensures Content(EnvRun(w, steps), key) == Content(EnvRun(v, steps), key)
    decreases |steps|
  {
    if steps != [] {
      OneMoveOnContent(w, v, steps[0], key);
      OthersSeeOnlyContent(EnvStepped(w, steps[0]), EnvStepped(v, steps[0]), steps[1..], key);
    }
  }

  lemma OneMoveOnContent(w: World, v: World, e: EnvStep, key: Key)
    requires Content(w, key) == Content(v, key) && w.res == v.res
    ensures Content(EnvStepped(w, e), key) == Content(EnvStepped(v, e), key)
    ensures EnvStepped(w, e).res == w.res && EnvStepped(v, e).res == v.res
  {
  }

  ghost predicate OnlyAnnotated(s: Sys, t: Sys, key: Key)
  {
    && |s.w.log| <= |t.w.log| && |t.w.log| - |s.w.log| <= |s.ticks|
    && (t.ticks == [] || t.ticks == s.ticks[|t.w.log| - |s.w.log|..])
    && Content(t.w, key) == Content(OthersOnly(s.w, Used(s, t)), key)
    && Counted(t.w) && t.w.res == s.w.res
  }

  lemma {:induction false} OthersFromEqualContent(w: World, v: World, ticks: seq<Tick>, key: Key)
    requires Content(w, key) == Content(v, key) && w.res == v.res
    ensures Content(OthersOnly(w, ticks), key) == Content(OthersOnly(v, ticks), key)
    decreases |ticks|
  {
    if ticks != [] {
      OthersSeeOnlyContent(w, v, ticks[0].steps, key);
      EnvWritesNoLog(w, ticks[0].steps);
      EnvWritesNoLog(v, ticks[0].steps);
      OthersFromEqualContent(EnvRun(w, ticks[0].steps), EnvRun(v, ticks[0].steps), ticks[1..], key);
    }
  }

  lemma {:induction false} OthersKeepResources(w: World, ticks: seq<Tick>)
    ensures OthersOnly(w, ticks).res == w.res
    decreases |ticks|
  {
    if ticks != [] {
      EnvWritesNoLog(w, ticks[0].steps);
      OthersKeepResources(EnvRun(w, ticks[0].steps), ticks[1..]);
    }
  }

  lemma AnnotationsCompose(r: Sys, s: Sys, t: Sys, key: Key)
    requires OnlyAnnotated(r, s, key) && OnlyAnnotated(s, t, key)
    ensures OnlyAnnotated(r, t, key)
  {
    hide Content, Counted, EnvRun;
    if |t.w.log| > |s.w.log| {
      var m, n := |s.w.log| - |r.w.log|, |t.w.log| - |r.w.log|;
      assert s.ticks == r.ticks[m..];
      assert r.ticks[..n] == r.ticks[..m] + s.ticks[..n - m];
      OthersInTurn(r.w, r.ticks[..m], s.ticks[..n - m]);
      OthersKeepResources(r.w, r.ticks[..m]);
      OthersFromEqualContent(s.w, OthersOnly(r.w, r.ticks[..m]), s.ticks[..n - m], key);
    } else {
      assert Used(s, t) == [];
    }
  }

  lemma ReadOnlyAnnotates(s: Sys, key: Key)
    requires Counted(s.w)
    ensures var a := Call(s, GetObject(key));
      && OnlyAnnotated(s, a.s, key)
      && (a.reply.ObjectIs? ==> key in a.s.w.objs && a.s.w.objs[key] == a.reply.stored)
  {
    CallUses(s, GetObject(key));
    if s.ticks != [] {
      OthersCount(s.w, s.ticks[0].steps, key);
      EnvWritesNoLog(s.w, s.ticks[0].steps);
      assert s.ticks[..1][0] == s.ticks[0] && s.ticks[..1][1..] == [];
      assert OthersOnly(s.w, s.ticks[..1]) == EnvRun(s.w, s.ticks[0].steps);
    }
  }

  /** The write that sets the annotation on a version read earlier either misses or changes nothing else. */
  lemma AnnotatingWrite(s: Sys, key: Key, read: Stored, text: string)
    requires Counted(s.w) && read.version <= s.w.revision
    requires key in s.w.objs && s.w.objs[key].version == read.version ==> s.w.objs[key] == read
    ensures var a := Call(s, UpdateObject(Manifest(key, Annotated(read.fields, text)), Some(read.version)));
      && OnlyAnnotated(s, a.s, key)
      && (a.reply == Done ==> key in a.s.w.objs && a.s.w.objs[key].fields == Annotated(read.fields, text))
  {
    var q := UpdateObject(Manifest(key, Annotated(read.fields, text)), Some(read.version));
    CallUses(s, q);
    if s.ticks != [] {
      OthersCount(s.w, s.ticks[0].steps, key);
      EnvWritesNoLog(s.w, s.ticks[0].steps);
      assert s.ticks[..1][0] == s.ticks[0] && s.ticks[..1][1..] == [];
      assert OthersOnly(s.w, s.ticks[..1]) == EnvRun(s.w, s.ticks[0].steps);
      var v := EnvRun(s.w, s.ticks[0].steps);
      assert Annotated(read.fields, text).entries - {RESTART_ANNOTATION} == read.fields.entries - {RESTART_ANNOTATION};
      assert Content(Effect(v, q), key) == Content(v, key);
    }
  }

  lemma {:induction false} ClockGoesOn(w: World, steps: seq<EnvStep>)
    ensures w.now <= EnvRun(w, steps).now
    decreases |steps|
  {
    if steps != [] {
      OneMoveOnClock(w, steps[0]);
      ClockGoesOn(EnvStepped(w, steps[0]), steps[1..]);
    }
  }

  lemma OneMoveOnClock(w: World, e: EnvStep)
    ensures w.now <= EnvStepped(w, e).now
  {
    hide Managed;
  }

  lemma CallTakesTime(s: Sys, q: Request)
    ensures s.w.now <= Call(s, q).s.w.now
  {
    if s.ticks != [] { ClockGoesOn(s.w, s.ticks[0].steps); }
  }

  /** The annotation holds a time from `since` to now. */
  ghost predicate Restarted(w: World, key: Key, since: nat)
  {
    key in w.objs && RESTART_ANNOTATION in w.objs[key].fields.entries
    && exists t: nat :: since <= t <= w.now && w.objs[key].fields.entries[RESTART_ANNOTATION] == Digits(t)
  }

  /** restartStatefulSet under any interleaving: but for the annotation the object is what the others alone
      made it, so no update of theirs is lost; and success means the annotation was set to the time of
      this call. */
  lemma {:induction false} RestartIsSafe(s: Sys, key: Key, attempts: nat)
    requires Counted(s.w)
    ensures var r := Restart(s, key, attempts);
      && OnlyAnnotated(s, r.s, key)
      && s.w.now <= r.s.w.now
      && (r.flow == OK ==> Restarted(r.s.w, key, s.w.now))
    decreases attempts
  {
    hide Call, OnlyAnnotated, Digits;
    var found := Call(s, GetObject(key));
    CallTakesTime(s, GetObject(key));
    ReadOnlyAnnotates(s, key);
    if found.reply.ObjectIs? {
      var read := found.reply.stored;
      var text := TimeText(found.s.w.now);
      AnnotatingWrite(found.s, key, read, text);
      var q := UpdateObject(Manifest(key, Annotated(read.fields, text)), Some(read.version));
      var written := Call(found.s, q);
      AnswersFit(found.s, q);
      AnnotationsCompose(s, found.s, written.s, key);
      CallTakesTime(s, GetObject(key));
      CallTakesTime(found.s, q);
      if written.reply == Done { assert written.s.w.objs[key].fields.entries[RESTART_ANNOTATION] == TimeText(found.s.w.now); }
      if written.reply == Fails(Conflict) && attempts > 1 {
        RestartIsSafe(written.s, key, attempts - 1);
        AnnotationsCompose(s, written.s, Restart(written.s, key, attempts - 1).s, key);
      }
    }
  }
}
