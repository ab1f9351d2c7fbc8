/** What creating or removing a directory of objects achieves when nobody else touches the objects; requests
    may still fail, and everything else may move. */
module Convergence {
  import opened Basics
  import opened Strings
  import opened NvmeshConf
  import opened CoreConfigMap
  import opened Kube
  import opened Objects

  predicate TouchesObjects(e: EnvStep)
  {
    e.ObjectGone? || e.ObjectEdited? || e.ObjectAppears?
  }

  /** No concurrent writers of objects. */
  predicate Undisturbed(ticks: seq<Tick>)
  {
    forall i, j :: 0 <= i < |ticks| && 0 <= j < |ticks[i].steps| ==> !TouchesObjects(ticks[i].steps[j])
  }

  function Contents(w: World): map<Key, Fields>
  {
    map k | k in w.objs :: w.objs[k].fields
  }

  /** A request's effect on the contents. */
  function After(c: map<Key, Fields>, unknown: set<string>, q: Request): map<Key, Fields>
  {
    match q
    case CreateObject(m) => if m.key in c || m.key.kind in unknown then c else c[m.key := m.fields]
    case UpdateObject(m, None) => if m.key in c then c[m.key := m.fields] else c
    case DeleteObject(k) => c - {k}
    case _ => c
  }

  lemma {:induction false} OthersLeaveObjects(w: World, steps: seq<EnvStep>)
    requires forall j :: 0 <= j < |steps| ==> !TouchesObjects(steps[j])
    ensures EnvRun(w, steps).objs == w.objs && EnvRun(w, steps).res == w.res && EnvRun(w, steps).log == w.log
    decreases |steps|
  {
    if steps != [] {
      var v := EnvStepped(w, steps[0]);
      assert !TouchesObjects(steps[0]);
      OthersLeaveObjects(v, steps[1..]);
    }
  }

  /** Where things stand after a request. */
  ghost predicate Stands(s: Sys, t: Sys)
  {
    Undisturbed(t.ticks) && t.cr == s.cr && t.w.res == s.w.res && s.w.log <= t.w.log
  }

  lemma CallStands(s: Sys, q: Request)
    requires Undisturbed(s.ticks) && (q.UpdateObject? ==> q.version.None?)
    ensures var a := Call(s, q); var c, d := Contents(s.w), Contents(a.s.w);
      && Stands(s, a.s)
      && (d == c || d == After(c, s.w.res.unknownKinds, q))
      && (a.reply == Done ==> d == After(c, s.w.res.unknownKinds, q))
      && (q.GetObject? ==> d == c)
      && (q.GetObject? && a.reply.ObjectIs? ==> q.key in c && c[q.key] == a.reply.stored.fields)
      && (q.GetObject? && (a.reply == Fails(NotFound) || a.reply == Fails(NoKindMatch)) ==> q.key !in c)
      && (q.CreateObject? && a.reply == Fails(AlreadyExists) ==> q.manifest.key in c)
      && (q.CreateObject? && a.reply == Done ==> q.manifest.key !in c && q.manifest.key.kind !in s.w.res.unknownKinds)
      && (q.UpdateObject? && a.reply == Done ==> q.manifest.key in c)
      && Fits(q, a.reply)
  {
    hide EnvRun;
    AnswersFit(s, q);
    if s.ticks != [] {
      OthersLeaveObjects(s.w, s.ticks[0].steps);
      var v := EnvRun(s.w, s.ticks[0].steps);
      assert Contents(Effect(v, q)) == After(Contents(s.w), s.w.res.unknownKinds, q);
    }
  }

  /** Only this key may have changed. */
  predicate SameElsewhere(c: map<Key, Fields>, d: map<Key, Fields>, key: Key)
  {
    c - {key} == d - {key}
  }

  // ---- one object ------------------------------------------------------------------------------

  lemma RemoveOne(s: Sys, key: Key)
    requires Undisturbed(s.ticks)
    ensures var r := RemoveObject(s, key); var c, d := Contents(s.w), Contents(r.s.w);
      && Stands(s, r.s) && (d == c || d == c - {key})
      && (r.flow == OK ==> key !in d)
      && (r.flow.Killed? || r.flow.result == DO_NOT_REQUEUE)
  {
    hide Call;
    var found := Call(s, GetObject(key));
    CallStands(s, GetObject(key));
    if found.reply.ObjectIs? { CallStands(found.s, DeleteObject(key)); }
  }

  /** The component is content with these fields. */
  ghost predicate Settled(component: Component, spec: Spec, m: Manifest, fields: Fields)
  {
    var wanted := component.init(spec, m);
    wanted.Some? && component.plan(spec, Manifest(m.key, wanted.value), fields) == Leave
  }

  /** The component is content with what it creates and with what it has written over anything it finds. */
  ghost predicate SettlesOn(component: Component, spec: Spec, m: Manifest)
  {
    var wanted := component.init(spec, m);
    wanted.Some? ==>
      && Settled(component, spec, m, wanted.value)
      && forall found: Fields :: var plan := component.plan(spec, Manifest(m.key, wanted.value), found);
           plan.Write? ==> Settled(component, spec, m, plan.fields)
  }

  /** What is there now is due for a write on the side. */
  predicate RestartDue(component: Component, spec: Spec, m: Manifest, c: map<Key, Fields>)
  {
    m.key in c && component.init(spec, m).Some?
    && component.plan(spec, Manifest(m.key, component.init(spec, m).value), c[m.key]).WriteAndRestart?
  }

  lemma SameDue(component: Component, spec: Spec, m: Manifest, c: map<Key, Fields>, d: map<Key, Fields>)
    requires (m.key in d <==> m.key in c) && (m.key in c ==> d[m.key] == c[m.key])
    ensures RestartDue(component, spec, m, c) <==> RestartDue(component, spec, m, d)
  {
  }

  ghost predicate NoRestartDue(component: Component, spec: Spec, ms: seq<Manifest>, c: map<Key, Fields>)
  {
    forall i :: 0 <= i < |ms| ==> !RestartDue(component, spec, ms[i], c)
  }

  lemma CreatedSettles(component: Component, spec: Spec, m: Manifest)
    requires SettlesOn(component, spec, m) && component.init(spec, m).Some?
    ensures Settled(component, spec, m, component.init(spec, m).value)
  {
  }

  lemma PlanSettles(component: Component, spec: Spec, m: Manifest, found: Fields)
    requires SettlesOn(component, spec, m) && component.init(spec, m).Some?
    ensures var plan := component.plan(spec, Manifest(m.key, component.init(spec, m).value), found);
      (plan.Leave? ==> Settled(component, spec, m, found)) && (plan.Write? ==> Settled(component, spec, m, plan.fields))
  {
  }

  lemma ApplyOne(s: Sys, key: Key, plan: Plan)
    requires Undisturbed(s.ticks) && !plan.WriteAndRestart? && key in Contents(s.w)
    ensures var r := Apply(s, key, plan); var c, d := Contents(s.w), Contents(r.s.w);
      && Stands(s, r.s) && SameElsewhere(c, d, key)
      && (r.flow == OK ==> key in d && d[key] == if plan.Write? then plan.fields else c[key])
      && (r.flow.Killed? || r.flow.result == DO_NOT_REQUEUE)
  {
    hide Call, Restart;
    if plan.Write? { CallStands(s, UpdateObject(Manifest(key, plan.fields), None)); }
  }

  lemma EnsureOne(s: Sys, component: Component, m: Manifest)
    requires Undisturbed(s.ticks) && SettlesOn(component, s.cr.spec, m) && !RestartDue(component, s.cr.spec, m, Contents(s.w))
    ensures var r := EnsureObject(s, Some(component), m); var c, d := Contents(s.w), Contents(r.s.w);
      && Stands(s, r.s) && SameElsewhere(c, d, m.key)
      && (r.flow == OK ==> m.key in d && Settled(component, s.cr.spec, m, d[m.key]))
      && (r.flow.Killed? || r.flow.result == DO_NOT_REQUEUE)
  {
    hide Call, Apply, Settled, SettlesOn;
    var wanted := Initialised(s.cr, Some(component), m);
    if wanted.Some? {
      var found := Call(s, GetObject(m.key));
      CallStands(s, GetObject(m.key));
      CreatedSettles(component, s.cr.spec, m);
      if found.reply == Fails(NotFound) {
        CallStands(found.s, CreateObject(wanted.value));
      } else if found.reply.ObjectIs? {
        var plan := PlanFor(s.cr, Some(component), wanted.value, found.reply.stored.fields);
        PlanSettles(component, s.cr.spec, m, found.reply.stored.fields);
        ApplyOne(found.s, m.key, plan);
      }
    }
  }

  // ---- files -----------------------------------------------------------------------------------

  predicate KeyIn(ms: seq<Manifest>, key: Key)
  {
    exists i :: 0 <= i < |ms| && ms[i].key == key
  }

  lemma {:induction false} RemoveFile(s: Sys, component: Component, ms: seq<Manifest>, first: Option<Error>)
    requires Undisturbed(s.ticks)
    ensures var r := ReconcileManifests(s, component, ms, true, first); var c, d := Contents(s.w), Contents(r.s.w);
      && Stands(s, r.s) && d.Keys <= c.Keys
      && (forall k :: !KeyIn(ms, k) ==> (k in d <==> k in c) && (k in c ==> c[k] == d[k]))
      && (r.flow == OK ==> first.None? && forall k :: KeyIn(ms, k) ==> k !in d)
    decreases |ms|
  {
    hide RemoveObject;
    if ms != [] {
      var one := RemoveObject(s, ms[0].key);
      RemoveOne(s, ms[0].key);
      assert forall k :: KeyIn(ms, k) <==> k == ms[0].key || KeyIn(ms[1..], k) by { KeyInTail(ms); }
      if !one.flow.Killed? {
        RemoveFile(one.s, component, ms[1..], FirstError(first, one.flow));
      }
    }
  }

  lemma KeyInTail(ms: seq<Manifest>)
    requires ms != []
    ensures forall k :: KeyIn(ms, k) <==> k == ms[0].key || KeyIn(ms[1..], k)
  {
    forall k ensures KeyIn(ms, k) <==> k == ms[0].key || KeyIn(ms[1..], k) {
      if KeyIn(ms[1..], k) {
        var i :| 0 <= i < |ms[1..]| && ms[1..][i].key == k;
        assert ms[i + 1].key == k;
      }
      if KeyIn(ms, k) && k != ms[0].key {
        var i :| 0 <= i < |ms| && ms[i].key == k;
        assert ms[1..][i - 1].key == k;
      }
    }
  }

  ghost predicate DistinctKeys(ms: seq<Manifest>)
  {
    forall i, j :: 0 <= i < j < |ms| ==> ms[i].key != ms[j].key
  }

  ghost predicate SettlesOnAll(component: Component, spec: Spec, ms: seq<Manifest>)
  {
    forall i :: 0 <= i < |ms| ==> SettlesOn(component, spec, ms[i])
  }

  ghost predicate InPlace(component: Component, spec: Spec, ms: seq<Manifest>, c: map<Key, Fields>)
  {
    forall i :: 0 <= i < |ms| ==> ms[i].key in c && Settled(component, spec, ms[i], c[ms[i].key])
  }

  lemma {:induction false} CreateFile(s: Sys, component: Component, ms: seq<Manifest>, first: Option<Error>)
    requires Undisturbed(s.ticks) && DistinctKeys(ms) && SettlesOnAll(component, s.cr.spec, ms)
    requires NoRestartDue(component, s.cr.spec, ms, Contents(s.w))
    ensures var r := ReconcileManifests(s, component, ms, false, first); var c, d := Contents(s.w), Contents(r.s.w);
      && Stands(s, r.s)
      && (forall k :: !KeyIn(ms, k) ==> (k in d <==> k in c) && (k in c ==> c[k] == d[k]))
      && (r.flow == OK ==> first.None? && InPlace(component, s.cr.spec, ms, d))
    decreases |ms|
  {
    hide EnsureObject, Settled, SettlesOn;
    if ms != [] {
      var one := EnsureObject(s, Some(component), ms[0]);
      EnsureOne(s, component, ms[0]);
      KeyInTail(ms);
      ElsewhereSame(Contents(s.w), Contents(one.s.w), ms[0].key);
      if !one.flow.Killed? {
        var error := FirstError(first, one.flow);
        var r := ReconcileManifests(one.s, component, ms[1..], false, error);
        forall i | 0 <= i < |ms[1..]| ensures !RestartDue(component, s.cr.spec, ms[1..][i], Contents(one.s.w)) {
          assert !RestartDue(component, s.cr.spec, ms[i + 1], Contents(s.w));
        }
        CreateFile(one.s, component, ms[1..], error);
        if r.flow == OK {
          assert one.flow == OK;
          assert !KeyIn(ms[1..], ms[0].key);
          forall i | 0 <= i < |ms| ensures ms[i].key in Contents(r.s.w) && Settled(component, s.cr.spec, ms[i], Contents(r.s.w)[ms[i].key]) {
            if i > 0 { assert ms[1..][i - 1] == ms[i]; }
          }
        }
      }
    }
  }

  lemma ElsewhereSame(c: map<Key, Fields>, d: map<Key, Fields>, key: Key)
    requires SameElsewhere(c, d, key)
    ensures forall k :: k != key ==> (k in d <==> k in c) && (k in c ==> c[k] == d[k])
  {
    forall k | k != key ensures (k in d <==> k in c) && (k in c ==> c[k] == d[k]) {
      assert k in c <==> k in c - {key};
      assert k in d <==> k in d - {key};
      if k in c { assert (c - {key})[k] == (d - {key})[k]; }
    }
  }

  // ---- directories -----------------------------------------------------------------------------

  /** All documents of a directory, in order. */
  function AllManifests(files: seq<YamlFile>): seq<Manifest>
    decreases |files|
  {
    if files == [] then [] else (if files[0].Readable? then files[0].manifests else []) + AllManifests(files[1..])
  }

  lemma {:induction false} KeyInJoined(a: seq<Manifest>, b: seq<Manifest>)
    ensures forall k :: KeyIn(a + b, k) <==> KeyIn(a, k) || KeyIn(b, k)
  {
    forall k ensures KeyIn(a + b, k) <==> KeyIn(a, k) || KeyIn(b, k) {
      if KeyIn(a, k) { var i :| 0 <= i < |a| && a[i].key == k; assert (a + b)[i].key == k; }
      if KeyIn(b, k) { var i :| 0 <= i < |b| && b[i].key == k; assert (a + b)[|a| + i].key == k; }
    }
  }

  /** Removing a directory: whatever happens, objects it does not list are untouched; if it reports no error,
      none of the listed objects is left. */
  lemma {:induction false} RemoveDirectory(s: Sys, component: Component, files: seq<YamlFile>)
    requires Undisturbed(s.ticks)
    ensures var r := ReconcileDir(s, component, files, true); var c, d := Contents(s.w), Contents(r.s.w);
      && Stands(s, r.s) && d.Keys <= c.Keys
      && (forall k :: !KeyIn(AllManifests(files), k) ==> (k in d <==> k in c) && (k in c ==> c[k] == d[k]))
      && (r.flow == OK ==> forall k :: KeyIn(AllManifests(files), k) ==> k !in d)
    decreases |files|
  {
    hide ReconcileManifests;
    if files != [] {
      var ms := if files[0].Readable? then files[0].manifests else [];
      KeyInJoined(ms, AllManifests(files[1..]));
      var one := ReconcileFile(s, component, files[0], true);
      if files[0].Readable? { RemoveFile(s, component, ms, None); }
      if one.flow == OK { RemoveDirectory(one.s, component, files[1..]); }
    }
  }

  /** Creating a directory: unlisted objects are untouched; if it reports no error, every listed object is
      there and none needs an update. */
  lemma {:induction false} CreateDirectory(s: Sys, component: Component, files: seq<YamlFile>)
    requires Undisturbed(s.ticks)
    requires DistinctKeys(AllManifests(files)) && SettlesOnAll(component, s.cr.spec, AllManifests(files))
    requires NoRestartDue(component, s.cr.spec, AllManifests(files), Contents(s.w))
    ensures var r := ReconcileDir(s, component, files, false); var c, d := Contents(s.w), Contents(r.s.w);
      && Stands(s, r.s)
      && (forall k :: !KeyIn(AllManifests(files), k) ==> (k in d <==> k in c) && (k in c ==> c[k] == d[k]))
      && (r.flow == OK ==> InPlace(component, s.cr.spec, AllManifests(files), d))
    decreases |files|
  {
    hide ReconcileManifests, Settled, SettlesOn, RestartDue, KeyIn;
    if files != [] {
      var ms := if files[0].Readable? then files[0].manifests else [];
      var rest := AllManifests(files[1..]);
      KeyInJoined(ms, rest);
      DistinctParts(ms, rest);
      SettlesOnParts(component, s.cr.spec, ms, rest);
      RestNotDue(component, s.cr.spec, ms, rest, Contents(s.w), Contents(s.w));
      var one := ReconcileFile(s, component, files[0], false);
      if files[0].Readable? { CreateFile(s, component, ms, None); }
      if one.flow == OK {
        var r := ReconcileDir(one.s, component, files[1..], false);
        RestNotDue(component, s.cr.spec, ms, rest, Contents(s.w), Contents(one.s.w));
        CreateDirectory(one.s, component, files[1..]);
      }
    }
  }

  lemma RestNotDue(component: Component, spec: Spec, a: seq<Manifest>, b: seq<Manifest>, c: map<Key, Fields>, d: map<Key, Fields>)
    requires NoRestartDue(component, spec, a + b, c) && (forall i :: 0 <= i < |b| ==> !KeyIn(a, b[i].key))
    requires forall k :: !KeyIn(a, k) ==> (k in d <==> k in c) && (k in c ==> c[k] == d[k])
    ensures NoRestartDue(component, spec, a, c) && NoRestartDue(component, spec, b, d)
  {
    hide RestartDue;
    forall i | 0 <= i < |a| ensures !RestartDue(component, spec, a[i], c) { assert (a + b)[i] == a[i]; }
    forall i | 0 <= i < |b| ensures !RestartDue(component, spec, b[i], d) {
      assert (a + b)[|a| + i] == b[i];
      SameDue(component, spec, b[i], c, d);
    }
  }

  lemma DistinctParts(a: seq<Manifest>, b: seq<Manifest>)
    requires DistinctKeys(a + b)
    ensures DistinctKeys(a) && DistinctKeys(b)
    ensures forall i :: 0 <= i < |b| ==> !KeyIn(a, b[i].key)
    ensures forall i :: 0 <= i < |a| ==> !KeyIn(b, a[i].key)
  {
    forall i, j | 0 <= i < j < |a| ensures a[i].key != a[j].key { assert (a + b)[i].key != (a + b)[j].key; }
    forall i, j | 0 <= i < j < |b| ensures b[i].key != b[j].key { assert (a + b)[|a| + i].key != (a + b)[|a| + j].key; }
    forall i, j | 0 <= i < |a| && 0 <= j < |b| ensures a[i].key != b[j].key { assert (a + b)[i].key != (a + b)[|a| + j].key; }
  }

  lemma SettlesOnParts(component: Component, spec: Spec, a: seq<Manifest>, b: seq<Manifest>)
    requires SettlesOnAll(component, spec, a + b)
    ensures SettlesOnAll(component, spec, a) && SettlesOnAll(component, spec, b)
  {
    hide SettlesOn;
    forall i | 0 <= i < |a| ensures SettlesOn(component, spec, a[i]) { assert (a + b)[i] == a[i]; }
    forall i | 0 <= i < |b| ensures SettlesOn(component, spec, b[i]) { assert (a + b)[|a| + i] == b[i]; }
  }

  // ---- the second time -------------------------------------------------------------------------

  predicate IsObjectWrite(q: Request)
  {
    q.CreateObject? || q.UpdateObject? || q.DeleteObject?
  }

  /** Nothing was written or even asked to be. */
  ghost predicate OnlyLooked(s: Sys, t: Sys)
  {
    && Stands(s, t) && Contents(t.w) == Contents(s.w)
    && forall i :: |s.w.log| <= i < |t.w.log| ==> !IsObjectWrite(t.w.log[i].request)
  }

  lemma LookOnce(s: Sys, component: Component, m: Manifest)
    requires Undisturbed(s.ticks) && m.key in Contents(s.w) && Settled(component, s.cr.spec, m, Contents(s.w)[m.key])
    ensures OnlyLooked(s, EnsureObject(s, Some(component), m).s)
  {
    hide Restart;
    CallStands(s, GetObject(m.key));
    GetIsOneLook(s, m.key);
    assert Initialised(s.cr, Some(component), m).Some?;
  }

  lemma GetIsOneLook(s: Sys, key: Key)
    requires Undisturbed(s.ticks)
    ensures var t := Call(s, GetObject(key)).s;
      forall i :: |s.w.log| <= i < |t.w.log| ==> !IsObjectWrite(t.w.log[i].request)
  {
    if s.ticks != [] { OthersLeaveObjects(s.w, s.ticks[0].steps); }
  }

  lemma {:induction false} LookAtFile(s: Sys, component: Component, ms: seq<Manifest>, first: Option<Error>)
    requires Undisturbed(s.ticks) && InPlace(component, s.cr.spec, ms, Contents(s.w))
    ensures OnlyLooked(s, ReconcileManifests(s, component, ms, false, first).s)
    decreases |ms|
  {
    hide EnsureObject, Settled;
    if ms != [] {
      var one := EnsureObject(s, Some(component), ms[0]);
      LookOnce(s, component, ms[0]);
      if !one.flow.Killed? {
        var error := FirstError(first, one.flow);
        forall i | 0 <= i < |ms[1..]| ensures ms[1..][i] == ms[i + 1] {}
        LookAtFile(one.s, component, ms[1..], error);
      }
    }
  }

  /** Once everything is in place, creating the directory again writes nothing. */
  lemma {:induction false} SecondTimeWritesNothing(s: Sys, component: Component, files: seq<YamlFile>)
    requires Undisturbed(s.ticks) && InPlace(component, s.cr.spec, AllManifests(files), Contents(s.w))
    ensures OnlyLooked(s, ReconcileDir(s, component, files, false).s)
    decreases |files|
  {
    hide ReconcileManifests, Settled;
    if files != [] {
      var ms := if files[0].Readable? then files[0].manifests else [];
      var rest := AllManifests(files[1..]);
      forall i | 0 <= i < |ms| ensures ms[i] == (ms + rest)[i] {}
      forall i | 0 <= i < |rest| ensures rest[i] == (ms + rest)[|ms| + i] {}
      if files[0].Readable? { LookAtFile(s, component, ms, None); }
      var one := ReconcileFile(s, component, files[0], false);
      if one.flow == OK {
        SecondTimeWritesNothing(one.s, component, files[1..]);
      }
    }
  }

  // ---- order of failures -----------------------------------------------------------------------

  /** A file is its objects in turn: whatever went wrong before, the rest still runs. */
  lemma {:induction false} ObjectsInTurn(s: Sys, component: Component, a: seq<Manifest>, b: seq<Manifest>, remove: bool, first: Option<Error>)
    ensures var front := ReconcileManifests(s, component, a, remove, first);
      ReconcileManifests(s, component, a + b, remove, first) ==
        if front.flow.Killed? then front else ReconcileManifests(front.s, component, b, remove, front.flow.err)
    decreases |a|
  {
    hide ReconcileObject;
    if a == [] {
      assert a + b == b;
    } else {
      assert (a + b)[1..] == a[1..] + b;
      var one := ReconcileObject(s, Some(component), a[0], remove);
      if !one.flow.Killed? { ObjectsInTurn(one.s, component, a[1..], b, remove, FirstError(first, one.flow)); }
    }
  }

  /** A directory is its files in turn: a file that fails is the last one touched. */
  lemma {:induction false} FilesInTurn(s: Sys, component: Component, a: seq<YamlFile>, b: seq<YamlFile>, remove: bool)
    ensures var front := ReconcileDir(s, component, a, remove);
      ReconcileDir(s, component, a + b, remove) ==
        if front.flow != OK then front else ReconcileDir(front.s, component, b, remove)
    decreases |a|
  {
    hide ReconcileFile;
    if a == [] {
      assert a + b == b;
    } else {
      assert (a + b)[1..] == a[1..] + b;
      var one := ReconcileFile(s, component, a[0], remove);
      FilesInTurn(one.s, component, a[1..], b, remove);
    }
  }
}
