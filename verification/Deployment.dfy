/** Creating a directory: exactly when "no error" means "everything is in place", and the three components whose
    directories the operator ships. */
module Deployment {
  import opened Basics
  import opened Strings
  import opened NvmeshConf
  import opened CoreConfigMap
  import opened Kube
  import opened Components
  import opened Objects
  import opened Convergence
  import Bootstrap

  // ---- whether a directory can succeed at all --------------------------------------------------

  /** The component accepts the manifest, and its kind is known or it is there already. */
  predicate Possible(w: World, component: Component, spec: Spec, m: Manifest)
  {
    component.init(spec, m).Some? && (m.key in w.objs || m.key.kind !in w.res.unknownKinds)
  }

  predicate CanSucceed(w: World, component: Component, spec: Spec, files: seq<YamlFile>)
  {
    && (forall i :: 0 <= i < |files| ==> files[i].Readable?)
    && (var ms := AllManifests(files); forall i :: 0 <= i < |ms| ==> Possible(w, component, spec, ms[i]))
  }

  /** From s to t no object appeared but perhaps this one. */
  ghost predicate OnlyAppears(s: Sys, t: Sys, key: Key)
  {
    Stands(s, t) && t.w.objs.Keys <= s.w.objs.Keys + {key}
  }

  lemma CallAppears(s: Sys, q: Request, key: Key)
    requires Undisturbed(s.ticks) && (q.CreateObject? ==> q.manifest.key == key)
    ensures OnlyAppears(s, Call(s, q).s, key)
  {
    if s.ticks != [] { OthersLeaveObjects(s.w, s.ticks[0].steps); }
  }

  lemma {:induction false} RestartAppears(s: Sys, target: Key, attempts: nat, key: Key)
    requires Undisturbed(s.ticks)
    ensures OnlyAppears(s, Restart(s, target, attempts).s, key)
    decreases attempts
  {
    hide Call;
    var found := Call(s, GetObject(target));
    CallAppears(s, GetObject(target), key);
    if found.reply.ObjectIs? {
      var fields := Annotated(found.reply.stored.fields, TimeText(found.s.w.now));
      var q := UpdateObject(Manifest(target, fields), Some(found.reply.stored.version));
      CallAppears(found.s, q, key);
      var written := Call(found.s, q);
      if written.reply == Fails(Conflict) && attempts > 1 { RestartAppears(written.s, target, attempts - 1, key); }
    }
  }

  lemma ApplyAppears(s: Sys, key: Key, plan: Plan)
    requires Undisturbed(s.ticks)
    ensures var r := Apply(s, key, plan); OnlyAppears(s, r.s, key) && (r.flow.Killed? || r.flow.result == DO_NOT_REQUEUE)
  {
    hide Call, Restart;
    if !plan.Leave? {
      var q := UpdateObject(Manifest(key, plan.fields), None);
      CallAppears(s, q, key);
      RestartAppears(Call(s, q).s, MGMT_STATEFUL_SET, RESTART_ATTEMPTS, key);
    }
  }

  /** Success of one object needs that it was possible. */
  lemma EnsureNeedsPossible(s: Sys, component: Component, m: Manifest)
    requires Undisturbed(s.ticks)
    ensures var r := EnsureObject(s, Some(component), m);
      && OnlyAppears(s, r.s, m.key) && (r.flow == OK ==> Possible(s.w, component, s.cr.spec, m))
      && (r.flow.Killed? || r.flow.result == DO_NOT_REQUEUE)
  {
    hide Call, Apply;
    var wanted := Initialised(s.cr, Some(component), m);
    if wanted.Some? {
      var found := Call(s, GetObject(m.key));
      CallAppears(s, GetObject(m.key), m.key);
      CallStands(s, GetObject(m.key));
      if found.reply == Fails(NotFound) {
        CallAppears(found.s, CreateObject(wanted.value), m.key);
        CallStands(found.s, CreateObject(wanted.value));
      } else if found.reply.ObjectIs? {
        ApplyAppears(found.s, m.key, PlanFor(s.cr, Some(component), wanted.value, found.reply.stored.fields));
      }
    }
  }

  lemma {:induction false} FileNeedsPossible(s: Sys, component: Component, ms: seq<Manifest>, first: Option<Error>)
    requires Undisturbed(s.ticks) && DistinctKeys(ms)
    ensures var r := ReconcileManifests(s, component, ms, false, first);
      && Stands(s, r.s) && (forall k :: k in r.s.w.objs && !KeyIn(ms, k) ==> k in s.w.objs)
      && (r.flow == OK ==> first.None? && forall i :: 0 <= i < |ms| ==> Possible(s.w, component, s.cr.spec, ms[i]))
    decreases |ms|
  {
    hide EnsureObject;
    if ms != [] {
      var one := EnsureObject(s, Some(component), ms[0]);
      EnsureNeedsPossible(s, component, ms[0]);
      KeyInTail(ms);
      if !one.flow.Killed? {
        var error := FirstError(first, one.flow);
        FileNeedsPossible(one.s, component, ms[1..], error);
        if ReconcileManifests(s, component, ms, false, first).flow == OK {
          forall i | 0 <= i < |ms| ensures Possible(s.w, component, s.cr.spec, ms[i]) {
            if i > 0 { assert ms[1..][i - 1] == ms[i] && ms[i].key != ms[0].key; }
          }
        }
      }
    }
  }

  lemma {:induction false} SuccessNeedsPossible(s: Sys, component: Component, files: seq<YamlFile>)
    requires Undisturbed(s.ticks) && DistinctKeys(AllManifests(files))
    ensures ReconcileDir(s, component, files, false).flow == OK ==> CanSucceed(s.w, component, s.cr.spec, files)
    decreases |files|
  {
    hide ReconcileManifests, Possible;
    if files != [] && files[0].Readable? {
      var ms, rest := files[0].manifests, AllManifests(files[1..]);
      DistinctParts(ms, rest);
      var one := ReconcileFile(s, component, files[0], false);
      FileNeedsPossible(s, component, ms, None);
      if one.flow == OK {
        SuccessNeedsPossible(one.s, component, files[1..]);
        if ReconcileDir(one.s, component, files[1..], false).flow == OK {
          forall i | 0 <= i < |ms + rest| ensures Possible(s.w, component, s.cr.spec, (ms + rest)[i]) {
            if i >= |ms| { PossibleBefore(s, one.s, component, ms, rest[i - |ms|]); }
          }
        }
      }
    }
  }

  lemma PossibleBefore(s: Sys, t: Sys, component: Component, ms: seq<Manifest>, m: Manifest)
    requires Possible(t.w, component, s.cr.spec, m) && !KeyIn(ms, m.key) && t.w.res == s.w.res
    requires forall k :: k in t.w.objs && !KeyIn(ms, k) ==> k in s.w.objs
    ensures Possible(s.w, component, s.cr.spec, m)
  {
  }

  // ---- a script under which everything but the side writes succeeds ------------------------------

  /** Every request is answered, except that a write on the side fails. */
  function Script(w: World, cr: Cr, component: Component, m: Manifest): seq<Tick>
  {
    if m.key !in w.objs || component.init(cr.spec, m).None? then [ANSWERED, ANSWERED]
    else
      match component.plan(cr.spec, Manifest(m.key, component.init(cr.spec, m).value), w.objs[m.key].fields)
      case Leave => [ANSWERED]
      case Write(_) => [ANSWERED, ANSWERED]
      case WriteAndRestart(_) => [ANSWERED, REFUSED]
  }

  function WorldAfter(w: World, cr: Cr, component: Component, m: Manifest): World
  {
    EnsureObject(Sys(w, cr, Script(w, cr, component, m), (names: set<string>) => []), Some(component), m).s.w
  }

  /** What the script makes of one object, whatever the script goes on with. */
  lemma ScriptedObject(w: World, cr: Cr, component: Component, m: Manifest, order: set<string> -> seq<string>, rest: seq<Tick>)
    requires Possible(w, component, cr.spec, m)
    ensures var r := EnsureObject(Sys(w, cr, Script(w, cr, component, m) + rest, order), Some(component), m);
      && r.flow == OK && r.s.ticks == rest && r.s.cr == cr && r.s.order == order
      && r.s.w.res == w.res && SameElsewhere(Contents(w), Contents(r.s.w), m.key)
      && w.objs.Keys <= r.s.w.objs.Keys
      && (RestartDue(component, cr.spec, m, Contents(w)) ==> Contents(r.s.w) == Contents(w))
    ensures EnsureObject(Sys(w, cr, Script(w, cr, component, m) + rest, order), Some(component), m).s.w
      == WorldAfter(w, cr, component, m)
  {
    hide Call;
    ScriptedTurn(w, cr, component, m, order, rest);
    ScriptedTurn(w, cr, component, m, (names: set<string>) => [], []);
    assert Script(w, cr, component, m) + [] == Script(w, cr, component, m);
  }

  /** The world after the scripted turn, spelled out. */
  function Outcome(w: World, cr: Cr, component: Component, m: Manifest): World
    requires component.init(cr.spec, m).Some?
  {
    var wanted := Manifest(m.key, component.init(cr.spec, m).value);
    var u := Noted(w, Entry(GetObject(m.key), Answer(w, GetObject(m.key)), true, Uninstalling(cr)));
    if m.key !in w.objs then
      var q := CreateObject(wanted);
      Noted(Effect(u, q), Entry(q, Answer(u, q), true, Uninstalling(cr)))
    else
      match component.plan(cr.spec, wanted, w.objs[m.key].fields)
      case Leave => u
      case Write(fields) =>
        var q := UpdateObject(Manifest(m.key, fields), None);
        Noted(Effect(u, q), Entry(q, Answer(u, q), true, Uninstalling(cr)))
      case WriteAndRestart(fields) =>
        Noted(u, Entry(UpdateObject(Manifest(m.key, fields), None), Fails(Unexpected), false, Uninstalling(cr)))
  }

  lemma ScriptedTurn(w: World, cr: Cr, component: Component, m: Manifest, order: set<string> -> seq<string>, rest: seq<Tick>)
    requires Possible(w, component, cr.spec, m)
    ensures EnsureObject(Sys(w, cr, Script(w, cr, component, m) + rest, order), Some(component), m)
      == Ran(Sys(Outcome(w, cr, component, m), cr, rest, order), OK)
    ensures var v := Outcome(w, cr, component, m);
      && v.res == w.res && SameElsewhere(Contents(w), Contents(v), m.key) && w.objs.Keys <= v.objs.Keys
      && (RestartDue(component, cr.spec, m, Contents(w)) ==> Contents(v) == Contents(w))
  {
    hide Call, Restart;
    var script := Script(w, cr, component, m);
    var s := Sys(w, cr, script + rest, order);
    assert script + rest == [ANSWERED] + (script[1..] + rest);
    AnsweredCall(s, GetObject(m.key), script[1..] + rest);
    var found := Call(s, GetObject(m.key));
    var wanted := Manifest(m.key, component.init(cr.spec, m).value);
    if m.key !in w.objs {
      assert script[1..] + rest == [ANSWERED] + rest;
      AnsweredCall(found.s, CreateObject(wanted), rest);
    } else {
      var plan := component.plan(cr.spec, wanted, w.objs[m.key].fields);
      if plan.Leave? {
        assert script[1..] + rest == rest;
      } else {
        var q := UpdateObject(Manifest(m.key, plan.fields), None);
        if plan.Write? {
          assert script[1..] + rest == [ANSWERED] + rest;
          AnsweredCall(found.s, q, rest);
        } else {
          assert script[1..] + rest == [REFUSED] + rest;
          RefusedCall(found.s, q, rest);
        }
      }
    }
  }

  function FileScript(w: World, cr: Cr, component: Component, ms: seq<Manifest>): seq<Tick>
    decreases |ms|
  {
    if ms == [] then []
    else Script(w, cr, component, ms[0]) + FileScript(WorldAfter(w, cr, component, ms[0]), cr, component, ms[1..])
  }

  function WorldAfterFile(w: World, cr: Cr, component: Component, ms: seq<Manifest>): World
    decreases |ms|
  {
    if ms == [] then w else WorldAfterFile(WorldAfter(w, cr, component, ms[0]), cr, component, ms[1..])
  }

  /** Under the script the objects still to come are as they were, and those due for a side write stay that way. */
  ghost predicate LeavesDue(w: World, v: World, cr: Cr, component: Component, ms: seq<Manifest>)
  {
    && v.res == w.res && w.objs.Keys <= v.objs.Keys
    && (forall k :: !KeyIn(ms, k) ==> (k in v.objs <==> k in w.objs) && (k in w.objs ==> v.objs[k].fields == w.objs[k].fields))
    && (forall i :: 0 <= i < |ms| && RestartDue(component, cr.spec, ms[i], Contents(w)) ==>
          RestartDue(component, cr.spec, ms[i], Contents(v)))
  }

  lemma {:induction false} ScriptedFile(w: World, cr: Cr, component: Component, ms: seq<Manifest>,
                                        order: set<string> -> seq<string>, rest: seq<Tick>)
    requires DistinctKeys(ms) && forall i :: 0 <= i < |ms| ==> Possible(w, component, cr.spec, ms[i])
    ensures ReconcileManifests(Sys(w, cr, FileScript(w, cr, component, ms) + rest, order), component, ms, false, None)
      == Ran(Sys(WorldAfterFile(w, cr, component, ms), cr, rest, order), OK)
    ensures LeavesDue(w, WorldAfterFile(w, cr, component, ms), cr, component, ms)
    decreases |ms|
  {
    hide EnsureObject, Script, WorldAfter, Possible, RestartDue;
    if ms == [] {
      assert FileScript(w, cr, component, ms) + rest == rest;
    } else {
      var v := WorldAfter(w, cr, component, ms[0]);
      var more := FileScript(v, cr, component, ms[1..]) + rest;
      assert FileScript(w, cr, component, ms) + rest == Script(w, cr, component, ms[0]) + more;
      ScriptedObject(w, cr, component, ms[0], order, more);
      ElsewhereSame(Contents(w), Contents(v), ms[0].key);
      forall k | k != ms[0].key ensures (k in v.objs <==> k in w.objs) && (k in w.objs ==> v.objs[k].fields == w.objs[k].fields) {
        assert k in Contents(w) <==> k in Contents(v);
      }
      forall i | 0 <= i < |ms[1..]| ensures Possible(v, component, cr.spec, ms[1..][i]) { StillPossible(w, v, component, cr.spec, ms[i + 1]); }
      ScriptedFile(v, cr, component, ms[1..], order, rest);
      KeyInTail(ms);
      DueThroughout(w, v, WorldAfterFile(v, cr, component, ms[1..]), cr, component, ms);
    }
  }

  lemma StillPossible(w: World, v: World, component: Component, spec: Spec, m: Manifest)
    requires Possible(w, component, spec, m) && v.res == w.res && w.objs.Keys <= v.objs.Keys
    ensures Possible(v, component, spec, m)
  {
  }

  lemma DueThroughout(w: World, v: World, u: World, cr: Cr, component: Component, ms: seq<Manifest>)
    requires ms != [] && DistinctKeys(ms) && LeavesDue(v, u, cr, component, ms[1..])
    requires forall k :: k != ms[0].key ==> (k in v.objs <==> k in w.objs) && (k in w.objs ==> v.objs[k].fields == w.objs[k].fields)
    requires RestartDue(component, cr.spec, ms[0], Contents(w)) ==> Contents(v) == Contents(w)
    ensures forall i :: 0 <= i < |ms| && RestartDue(component, cr.spec, ms[i], Contents(w)) ==>
      RestartDue(component, cr.spec, ms[i], Contents(u))
  {
    forall i | 0 <= i < |ms| && RestartDue(component, cr.spec, ms[i], Contents(w))
      ensures RestartDue(component, cr.spec, ms[i], Contents(u))
    {
      if i == 0 {
        assert !KeyIn(ms[1..], ms[0].key);
        assert u.objs[ms[0].key].fields == v.objs[ms[0].key].fields == Contents(v)[ms[0].key];
      } else {
        assert ms[i].key != ms[0].key;
        assert RestartDue(component, cr.spec, ms[1..][i - 1], Contents(v));
      }
    }
  }

  function DirScript(w: World, cr: Cr, component: Component, files: seq<YamlFile>): seq<Tick>
    decreases |files|
  {
    if files == [] || files[0].Unreadable? then []
    else
      FileScript(w, cr, component, files[0].manifests)
      + DirScript(WorldAfterFile(w, cr, component, files[0].manifests), cr, component, files[1..])
  }

  lemma {:induction false} ScriptedDir(w: World, cr: Cr, component: Component, files: seq<YamlFile>, order: set<string> -> seq<string>)
    requires CanSucceed(w, component, cr.spec, files) && DistinctKeys(AllManifests(files))
    ensures var r := ReconcileDir(Sys(w, cr, DirScript(w, cr, component, files), order), component, files, false);
      r.flow == OK && LeavesDue(w, r.s.w, cr, component, AllManifests(files))
    decreases |files|
  {
    hide ReconcileManifests, FileScript, WorldAfterFile, Possible, RestartDue, DistinctKeys;
    if files != [] {
      var ms, rest := files[0].manifests, AllManifests(files[1..]);
      var v := WorldAfterFile(w, cr, component, ms);
      DistinctParts(ms, rest);
      forall i | 0 <= i < |ms| ensures Possible(w, component, cr.spec, ms[i]) { assert (ms + rest)[i] == ms[i]; }
      ScriptedFile(w, cr, component, ms, order, DirScript(v, cr, component, files[1..]));
      forall i | 0 <= i < |rest| ensures Possible(v, component, cr.spec, rest[i]) {
        assert (ms + rest)[|ms| + i] == rest[i];
        StillPossible(w, v, component, cr.spec, rest[i]);
      }
      ScriptedDir(v, cr, component, files[1..], order);
      var u := ReconcileDir(Sys(v, cr, DirScript(v, cr, component, files[1..]), order), component, files[1..], false).s.w;
      KeyInJoined(ms, rest);
      DueInBoth(w, v, u, cr, component, ms, rest);
    }
  }

  lemma DueInBoth(w: World, v: World, u: World, cr: Cr, component: Component, a: seq<Manifest>, b: seq<Manifest>)
    requires DistinctKeys(a + b) && LeavesDue(w, v, cr, component, a) && LeavesDue(v, u, cr, component, b)
    ensures forall i :: 0 <= i < |a + b| && RestartDue(component, cr.spec, (a + b)[i], Contents(w)) ==>
      RestartDue(component, cr.spec, (a + b)[i], Contents(u))
  {
    DistinctParts(a, b);
    forall i | 0 <= i < |a + b| && RestartDue(component, cr.spec, (a + b)[i], Contents(w))
      ensures RestartDue(component, cr.spec, (a + b)[i], Contents(u))
    {
      if i < |a| {
        assert (a + b)[i] == a[i] && RestartDue(component, cr.spec, a[i], Contents(v));
        assert !KeyIn(b, a[i].key);
      } else {
        assert (a + b)[i] == b[i - |a|] && !KeyIn(a, b[i - |a|].key);
        assert RestartDue(component, cr.spec, b[i - |a|], Contents(v));
      }
    }
  }

  // ---- the exact condition ---------------------------------------------------------------------

  /** Whatever happens to the requests, and whatever else moves: no error means everything is in place. */
  ghost predicate NeverMisreports(w: World, cr: Cr, order: set<string> -> seq<string>, component: Component, files: seq<YamlFile>)
  {
    forall ticks :: Undisturbed(ticks) ==>
      (var r := ReconcileDir(Sys(w, cr, ticks, order), component, files, false);
       r.flow == OK ==> InPlace(component, cr.spec, AllManifests(files), Contents(r.s.w)))
  }

  /** A directory keeps its promise exactly when no listed object is due for a write on the side, or it cannot
      succeed in the first place. */
  lemma PromiseKeptExactly(w: World, cr: Cr, order: set<string> -> seq<string>, component: Component, files: seq<YamlFile>)
    requires DistinctKeys(AllManifests(files)) && SettlesOnAll(component, cr.spec, AllManifests(files))
    ensures NeverMisreports(w, cr, order, component, files) <==>
      NoRestartDue(component, cr.spec, AllManifests(files), Contents(w)) || !CanSucceed(w, component, cr.spec, files)
  {
    hide ReconcileDir, CanSucceed, SettlesOnAll, Settled, DirScript, LeavesDue, Undisturbed;
    var ms := AllManifests(files);
    if NoRestartDue(component, cr.spec, ms, Contents(w)) || !CanSucceed(w, component, cr.spec, files) {
      forall ticks | Undisturbed(ticks)
        ensures var r := ReconcileDir(Sys(w, cr, ticks, order), component, files, false);
          r.flow == OK ==> InPlace(component, cr.spec, ms, Contents(r.s.w))
      {
        var s := Sys(w, cr, ticks, order);
        if NoRestartDue(component, cr.spec, ms, Contents(w)) { CreateDirectory(s, component, files); }
        else { SuccessNeedsPossible(s, component, files); }
      }
    } else {
      var ticks := DirScript(w, cr, component, files);
      ScriptIsUndisturbed(w, cr, component, files);
      ScriptedDir(w, cr, component, files, order);
      var r := ReconcileDir(Sys(w, cr, ticks, order), component, files, false);
      DueIsNotInPlace(w, r.s.w, cr, component, ms);
    }
  }

  lemma DueIsNotInPlace(w: World, v: World, cr: Cr, component: Component, ms: seq<Manifest>)
    requires LeavesDue(w, v, cr, component, ms) && !NoRestartDue(component, cr.spec, ms, Contents(w))
    ensures !InPlace(component, cr.spec, ms, Contents(v))
  {
    var i :| 0 <= i < |ms| && RestartDue(component, cr.spec, ms[i], Contents(w));
    assert RestartDue(component, cr.spec, ms[i], Contents(v));
  }

  ghost predicate Empty(ticks: seq<Tick>)
  {
    forall i :: 0 <= i < |ticks| ==> ticks[i].steps == []
  }

  lemma {:induction false} FileScriptIsEmpty(w: World, cr: Cr, component: Component, ms: seq<Manifest>)
    ensures Empty(FileScript(w, cr, component, ms))
    decreases |ms|
  {
    hide WorldAfter;
    if ms != [] { FileScriptIsEmpty(WorldAfter(w, cr, component, ms[0]), cr, component, ms[1..]); }
  }

  lemma {:induction false} DirScriptIsEmpty(w: World, cr: Cr, component: Component, files: seq<YamlFile>)
    ensures Empty(DirScript(w, cr, component, files))
    decreases |files|
  {
    hide FileScript, WorldAfterFile;
    if files != [] && files[0].Readable? {
      FileScriptIsEmpty(w, cr, component, files[0].manifests);
      DirScriptIsEmpty(WorldAfterFile(w, cr, component, files[0].manifests), cr, component, files[1..]);
    }
  }

  lemma ScriptIsUndisturbed(w: World, cr: Cr, component: Component, files: seq<YamlFile>)
    ensures Undisturbed(DirScript(w, cr, component, files))
  {
    hide DirScript;
    DirScriptIsEmpty(w, cr, component, files);
  }

  // ---- the three components ----------------------------------------------------------------------

  lemma CoreSettles(spec: Spec, m: Manifest)
    ensures SettlesOn(CoreComponent(), spec, m)
    ensures forall c: map<Key, Fields> :: !RestartDue(CoreComponent(), spec, m, c)
  {
    var wanted := CoreInit(spec, m).value;
    PreparedIsUpToDate(spec.deploy, m.fields.containers);
    hide Prepared, DaemonSetDiffers, Expected, DataDiffers, MergedData;
    if m.key.kind == "ConfigMap" { ConfigMapSettles(spec.core, m.fields.entries); }
  }

  lemma ConfigMapSettles(spec: CoreSpec, manifest: Data)
    ensures !DataDiffers(Expected(spec, manifest), Expected(spec, manifest))
    ensures forall found: Data :: !DataDiffers(Expected(spec, manifest), MergedData(Expected(spec, manifest), found))
  {
    var wanted := Expected(spec, manifest);
    ExpectedMatchesItself(spec, manifest);
    forall found: Data ensures !DataDiffers(wanted, MergedData(wanted, found)) { NothingLeftToMerge(wanted, found); }
  }

  lemma CsiSettles(spec: Spec, m: Manifest)
    ensures SettlesOn(CsiComponent(), spec, m)
    ensures forall c: map<Key, Fields> :: !RestartDue(CsiComponent(), spec, m, c)
  {
  }

  /** The ConfigMap is there with another configuration than the spec amounts to. */
  predicate StaleConfig(w: World, spec: Spec)
  {
    MGMT_CONFIG in w.objs && ConfigText(w.objs[MGMT_CONFIG].fields) != spec.deploy.mgmtConfig
  }

  lemma MgmtSettles(spec: Spec, m: Manifest)
    ensures SettlesOn(MgmtComponent(), spec, m)
    ensures forall w: World :: RestartDue(MgmtComponent(), spec, m, Contents(w)) <==> m.key == MGMT_CONFIG && StaleConfig(w, spec)
  {
    assert MGMT_CONFIG.kind[0] == 'C' && MGMT_SERVER.kind[0] == 'S' && MONGO.kind[0] == 'S' && MGMT_GUI.kind[0] == 'S';
    forall w: World ensures RestartDue(MgmtComponent(), spec, m, Contents(w)) <==> m.key == MGMT_CONFIG && StaleConfig(w, spec) {
      if m.key == MGMT_CONFIG {
        assert MgmtInit(spec, m).value.entries["config"] == spec.deploy.mgmtConfig;
      }
    }
  }

  /** A second pass over what a successful one left, with the same spec. */
  ghost predicate Again(s: Sys, first: Ran, t: Sys)
  {
    Undisturbed(t.ticks) && t.cr.spec == s.cr.spec && Contents(t.w) == Contents(first.s.w)
  }

  /** The core directory, DaemonSets and ConfigMap and whatever else it lists: a pass without error leaves everything
      in place, whatever was there before, and a second pass asks for no write. */
  lemma CoreDirectoryConverges(s: Sys, t: Sys, files: seq<YamlFile>)
    requires Undisturbed(s.ticks) && DistinctKeys(AllManifests(files))
    ensures var r := ReconcileDir(s, CoreComponent(), files, false);
      r.flow == OK ==>
        && InPlace(CoreComponent(), s.cr.spec, AllManifests(files), Contents(r.s.w))
        && (Again(s, r, t) ==> OnlyLooked(t, ReconcileDir(t, CoreComponent(), files, false).s))
  {
    hide SettlesOn, RestartDue, ReconcileDir, OnlyLooked, CoreComponent;
    forall i | 0 <= i < |AllManifests(files)| { CoreSettles(s.cr.spec, AllManifests(files)[i]); }
    CreateDirectory(s, CoreComponent(), files);
    if InPlace(CoreComponent(), t.cr.spec, AllManifests(files), Contents(t.w)) && Undisturbed(t.ticks) {
      SecondTimeWritesNothing(t, CoreComponent(), files);
    }
  }

  /** The same for the CSI directory. */
  lemma CsiDirectoryConverges(s: Sys, t: Sys, files: seq<YamlFile>)
    requires Undisturbed(s.ticks) && DistinctKeys(AllManifests(files))
    ensures var r := ReconcileDir(s, CsiComponent(), files, false);
      r.flow == OK ==>
        && InPlace(CsiComponent(), s.cr.spec, AllManifests(files), Contents(r.s.w))
        && (Again(s, r, t) ==> OnlyLooked(t, ReconcileDir(t, CsiComponent(), files, false).s))
  {
    hide SettlesOn, RestartDue, ReconcileDir, OnlyLooked, CsiComponent;
    forall i | 0 <= i < |AllManifests(files)| { CsiSettles(s.cr.spec, AllManifests(files)[i]); }
    CreateDirectory(s, CsiComponent(), files);
    if InPlace(CsiComponent(), t.cr.spec, AllManifests(files), Contents(t.w)) && Undisturbed(t.ticks) {
      SecondTimeWritesNothing(t, CsiComponent(), files);
    }
  }

  /** The management and mongo directories keep the promise exactly when the listed ConfigMap is not there with another
      configuration, or the directory cannot succeed at all. */
  lemma ManagementPromiseExactly(w: World, cr: Cr, order: set<string> -> seq<string>, files: seq<YamlFile>)
    requires DistinctKeys(AllManifests(files))
    ensures NeverMisreports(w, cr, order, MgmtComponent(), files) <==>
      !(KeyIn(AllManifests(files), MGMT_CONFIG) && StaleConfig(w, cr.spec)) || !CanSucceed(w, MgmtComponent(), cr.spec, files)
  {
    hide SettlesOn, RestartDue, NeverMisreports, CanSucceed, MgmtComponent, StaleConfig;
    var ms := AllManifests(files);
    forall i | 0 <= i < |ms|
      ensures SettlesOn(MgmtComponent(), cr.spec, ms[i])
      ensures RestartDue(MgmtComponent(), cr.spec, ms[i], Contents(w)) <==> ms[i].key == MGMT_CONFIG && StaleConfig(w, cr.spec)
    {
      MgmtSettles(cr.spec, ms[i]);
    }
    PromiseKeptExactly(w, cr, order, MgmtComponent(), files);
  }

  /** For one, a directory of just that ConfigMap, stored with no configuration while the spec asks for one: some pass
      reports success and leaves it as it was. */
  lemma StaleConfigReportedDone(w: World, cr: Cr, order: set<string> -> seq<string>)
    requires w.objs == map[MGMT_CONFIG := Stored(BARE, 1)] && cr.spec.deploy.mgmtConfig == "{}"
    ensures !NeverMisreports(w, cr, order, MgmtComponent(), [Readable([Manifest(MGMT_CONFIG, BARE)])])
  {
    var m := Manifest(MGMT_CONFIG, BARE);
    var files := [Readable([m])];
    assert files[1..] == [] && AllManifests(files) == [m];
    assert AllManifests(files)[0].key == MGMT_CONFIG;
    ManagementPromiseExactly(w, cr, order, files);
  }

  // ---- the core ConfigMap, request by request ----------------------------------------------------

  function DataAt(w: World, key: Key): Option<Data>
  {
    if key in w.objs then Some(w.objs[key].fields.entries) else None
  }

  /** What core plans for its ConfigMap. */
  lemma ConfigMapPlan(spec: Spec, m: Manifest, found: Fields)
    requires m.key.kind == "ConfigMap"
    ensures var component := CoreComponent(); var wanted := Expected(spec.core, m.fields.entries);
      && component.init(spec, m) == Some(m.fields.(entries := wanted))
      && component.plan(spec, Manifest(m.key, m.fields.(entries := wanted)), found) ==
           if DataDiffers(wanted, found.entries) then Write(m.fields.(entries := MergedData(wanted, found.entries))) else Leave
  {
    hide Expected, MergedData, DataDiffers;
    assert "ConfigMap"[0] != "DaemonSet"[0];
  }

  lemma ConfigMapLook(s: Sys, m: Manifest)
    requires Undisturbed(s.ticks) && m.key.kind == "ConfigMap" && !Writes(DataAt(s.w, m.key), s.cr.spec.core, m.fields.entries)
    ensures OnlyLooked(s, EnsureObject(s, Some(CoreComponent()), m).s)
  {
    hide EnsureObject, CoreComponent, Expected, DataDiffers, OnlyLooked;
    ConfigMapPlan(s.cr.spec, m, Contents(s.w)[m.key]);
    LookOnce(s, CoreComponent(), m);
  }

  /** One pass over the ConfigMap on the API server, errors included: what is stored is as before or as `Reconciled`
      says, and the latter if the pass succeeds; and nothing is written unless `Writes` says so. */
  lemma ConfigMapPass(s: Sys, m: Manifest)
    requires Undisturbed(s.ticks) && m.key.kind == "ConfigMap"
    ensures var r := EnsureObject(s, Some(CoreComponent()), m);
      var before, after := DataAt(s.w, m.key), DataAt(r.s.w, m.key);
      var target := Reconciled(before, s.cr.spec.core, m.fields.entries);
      && (after == before || after == target) && (r.flow == OK ==> after == target)
      && (!Writes(before, s.cr.spec.core, m.fields.entries) ==> OnlyLooked(s, r.s))
  {
    hide Call, Apply, CoreComponent, Expected, MergedData, DataDiffers, OnlyLooked, Writes;
    if !Writes(DataAt(s.w, m.key), s.cr.spec.core, m.fields.entries) { ConfigMapLook(s, m); }
    var wanted := m.fields.(entries := Expected(s.cr.spec.core, m.fields.entries));
    ConfigMapPlan(s.cr.spec, m, wanted);
    var found := Call(s, GetObject(m.key));
    CallStands(s, GetObject(m.key));
    SameData(s.w, found.s.w, m.key);
    if found.reply == Fails(NotFound) {
      CallStands(found.s, CreateObject(Manifest(m.key, wanted)));
      CreatedData(found.s, m.key, wanted);
    } else if found.reply.ObjectIs? {
      ConfigMapPlan(s.cr.spec, m, found.reply.stored.fields);
      FoundData(s.w, found.s.w, m.key, found.reply.stored.fields);
      WriteOne(found.s, m.key, CoreComponent().plan(s.cr.spec, Manifest(m.key, wanted), found.reply.stored.fields));
    }
  }

  lemma CreatedData(s: Sys, key: Key, fields: Fields)
    requires Undisturbed(s.ticks) && key !in Contents(s.w)
    ensures var a := Call(s, CreateObject(Manifest(key, fields))); var after := DataAt(a.s.w, key);
      && DataAt(s.w, key) == None && (after == None || after == Some(fields.entries))
      && (a.reply == Done ==> after == Some(fields.entries)) && a.reply != Fails(AlreadyExists)
  {
    hide Call;
    CallStands(s, CreateObject(Manifest(key, fields)));
    var d := Contents(Call(s, CreateObject(Manifest(key, fields))).s.w);
    assert key in d ==> d[key] == fields;
  }

  lemma FoundData(w: World, v: World, key: Key, fields: Fields)
    requires Contents(v) == Contents(w) && key in Contents(w) && Contents(w)[key] == fields
    ensures DataAt(w, key) == Some(fields.entries)
  {
  }

  lemma SameData(w: World, v: World, key: Key)
    requires Contents(w) == Contents(v)
    ensures DataAt(w, key) == DataAt(v, key)
  {
    assert key in Contents(w) <==> key in Contents(v);
  }

  lemma WriteOne(s: Sys, key: Key, plan: Plan)
    requires Undisturbed(s.ticks) && !plan.WriteAndRestart? && key in Contents(s.w)
    ensures var r := Apply(s, key, plan);
      && (DataAt(r.s.w, key) == DataAt(s.w, key) || (plan.Write? && DataAt(r.s.w, key) == Some(plan.fields.entries)))
      && (r.flow == OK && plan.Write? ==> DataAt(r.s.w, key) == Some(plan.fields.entries))
  {
    hide Call, Restart;
    if plan.Write? {
      var q := UpdateObject(Manifest(key, plan.fields), None);
      CallStands(s, q);
      var d := Contents(Call(s, q).s.w);
      assert key in d && (d[key] == Contents(s.w)[key] || d[key] == plan.fields);
    }
  }

  /** The value under k in the stored nvmesh.conf is as before, present or not. */
  ghost predicate SettingKept(w: World, v: World, key: Key, k: string)
  {
    key in w.objs ==>
      && key in v.objs
      && var before, after := Parse(Lookup(DataAt(w, key).value, CONF)), Parse(Lookup(DataAt(v, key).value, CONF));
         (k in after <==> k in before) && Lookup(after, k) == Lookup(before, k)
  }

  /** This manifest does not manage the setting k of the ConfigMap under `key`. */
  ghost predicate NotOurs(m: Manifest, key: Key, k: string)
  {
    m.key == key ==> k !in Parse(Lookup(m.fields.entries, CONF))
  }

  lemma TurnKeepsSetting(s: Sys, m: Manifest, key: Key, k: string)
    requires Undisturbed(s.ticks) && OneLineValues(s.cr.spec.core)
    requires key.kind == "ConfigMap" && k !in MANAGED_KEYS && NotOurs(m, key, k)
    ensures var r := EnsureObject(s, Some(CoreComponent()), m); Stands(s, r.s) && SettingKept(s.w, r.s.w, key, k)
  {
    hide EnsureObject, CoreComponent, Reconciled, Parse, SettlesOn, RestartDue;
    var r := EnsureObject(s, Some(CoreComponent()), m);
    CoreSettles(s.cr.spec, m);
    EnsureOne(s, CoreComponent(), m);
    if m.key == key {
      ConfigMapPass(s, m);
      if key in s.w.objs {
        SettingsKeys(s.cr.spec.core);
        ReconcileOverlays(DataAt(s.w, key).value, s.cr.spec.core, m.fields.entries);
        ReconciledIsThere(DataAt(s.w, key).value, s.cr.spec.core, m.fields.entries);
      }
    } else {
      ElsewhereSame(Contents(s.w), Contents(r.s.w), m.key);
      assert key in Contents(s.w) <==> key in Contents(r.s.w);
      if key in s.w.objs { assert Contents(s.w)[key] == Contents(r.s.w)[key]; }
    }
  }

  lemma ReconciledIsThere(stored: Data, spec: CoreSpec, manifest: Data)
    ensures Reconciled(Some(stored), spec, manifest).Some?
  {
  }

  lemma {:induction false} FileKeepsSetting(s: Sys, ms: seq<Manifest>, first: Option<Error>, key: Key, k: string)
    requires Undisturbed(s.ticks) && OneLineValues(s.cr.spec.core)
    requires key.kind == "ConfigMap" && k !in MANAGED_KEYS && forall i :: 0 <= i < |ms| ==> NotOurs(ms[i], key, k)
    ensures var r := ReconcileManifests(s, CoreComponent(), ms, false, first); Stands(s, r.s) && SettingKept(s.w, r.s.w, key, k)
    decreases |ms|
  {
    hide EnsureObject, CoreComponent, Parse, NotOurs;
    if ms != [] {
      var one := EnsureObject(s, Some(CoreComponent()), ms[0]);
      TurnKeepsSetting(s, ms[0], key, k);
      if !one.flow.Killed? { FileKeepsSetting(one.s, ms[1..], FirstError(first, one.flow), key, k); }
    }
  }

  lemma {:induction false} DirKeepsSetting(s: Sys, files: seq<YamlFile>, key: Key, k: string)
    requires Undisturbed(s.ticks) && OneLineValues(s.cr.spec.core)
    requires key.kind == "ConfigMap" && k !in MANAGED_KEYS
    requires forall i :: 0 <= i < |AllManifests(files)| ==> NotOurs(AllManifests(files)[i], key, k)
    ensures var r := ReconcileDir(s, CoreComponent(), files, false); Stands(s, r.s) && SettingKept(s.w, r.s.w, key, k)
    decreases |files|
  {
    hide ReconcileManifests, CoreComponent, Parse, NotOurs;
    if files != [] {
      var ms := if files[0].Readable? then files[0].manifests else [];
      var rest := AllManifests(files[1..]);
      var all := AllManifests(files);
      assert all == ms + rest;
      forall i | 0 <= i < |ms| ensures NotOurs(ms[i], key, k) { assert all[i] == ms[i] && NotOurs(all[i], key, k); }
      forall i | 0 <= i < |rest| ensures NotOurs(rest[i], key, k) {
        assert all[|ms| + i] == rest[i] && NotOurs(all[|ms| + i], key, k);
      }
      var one := ReconcileFile(s, CoreComponent(), files[0], false);
      if files[0].Readable? { FileKeepsSetting(s, ms, None, key, k); }
      if one.flow == OK { DirKeepsSetting(one.s, files[1..], key, k); }
    }
  }

  /** One creating pass over the core directory, with the spec of that cycle and whatever becomes of its requests. */
  datatype Pass = Pass(cr: Cr, ticks: seq<Tick>, order: set<string> -> seq<string>)

  ghost function AfterPasses(w: World, passes: seq<Pass>, files: seq<YamlFile>): World
    decreases |passes|
  {
    if passes == [] then w
    else
      var p := passes[0];
      AfterPasses(ReconcileDir(Sys(w, p.cr, p.ticks, p.order), CoreComponent(), files, false).s.w, passes[1..], files)
  }

  /** Over any sequence of such passes, failing and dying ones included, a setting the operator never manages keeps its
      value, or stays absent. */
  lemma {:induction false} UserSettingsSurvive(w: World, passes: seq<Pass>, files: seq<YamlFile>, key: Key, k: string)
    requires key.kind == "ConfigMap" && k !in MANAGED_KEYS
    requires forall i :: 0 <= i < |AllManifests(files)| ==> NotOurs(AllManifests(files)[i], key, k)
    requires forall p :: p in passes ==> Undisturbed(p.ticks) && OneLineValues(p.cr.spec.core)
    ensures SettingKept(w, AfterPasses(w, passes, files), key, k)
    decreases |passes|
  {
    hide ReconcileDir, CoreComponent, Parse, NotOurs, OneLineValues;
    if passes != [] {
      var p := passes[0];
      var s := Sys(w, p.cr, p.ticks, p.order);
      DirKeepsSetting(s, files, key, k);
      UserSettingsSurvive(ReconcileDir(s, CoreComponent(), files, false).s.w, passes[1..], files, key, k);
    }
  }

  // ---- nobody is skipped -------------------------------------------------------------------------

  predicate LookedAt(log: seq<Entry>, from: nat, key: Key)
  {
    exists i :: from <= i < |log| && log[i].request == GetObject(key)
  }

  lemma LookedAtStays(log: seq<Entry>, more: seq<Entry>, from: nat, earlier: nat, key: Key)
    requires log <= more && earlier <= from && LookedAt(log, from, key)
    ensures LookedAt(more, earlier, key)
  {
    var i :| from <= i < |log| && log[i].request == GetObject(key);
    assert more[i] == log[i];
  }

  lemma FirstLook(s: Sys, key: Key)
    ensures var a := Call(s, GetObject(key)); s.w.log <= a.s.w.log && (!a.reply.Silence? ==> LookedAt(a.s.w.log, |s.w.log|, key))
  {
    hide Call;
    Bootstrap.CallAndDb(s, GetObject(key));
    var a := Call(s, GetObject(key));
    if !a.reply.Silence? { assert a.s.w.log[|s.w.log|].request == GetObject(key); }
  }

  lemma ObjectIsLookedAt(s: Sys, component: Component, m: Manifest, remove: bool)
    ensures var r := ReconcileObject(s, Some(component), m, remove);
      && s.w.log <= r.s.w.log && r.s.cr == s.cr
      && (!r.flow.Killed? ==> LookedAt(r.s.w.log, |s.w.log|, m.key) || (!remove && component.init(s.cr.spec, m).None?))
  {
    hide Call, Apply;
    var found := Call(s, GetObject(m.key));
    FirstLook(s, m.key);
    Bootstrap.CallAndDb(s, GetObject(m.key));
    Bootstrap.CallAndDb(found.s, DeleteObject(m.key));
    var wanted := Initialised(s.cr, Some(component), m);
    if !remove && wanted.Some? {
      Bootstrap.CallAndDb(found.s, CreateObject(wanted.value));
      if found.reply.ObjectIs? {
        var files := [Readable([m])];
        assert files[0].Readable? && m in files[0].manifests && Kube.Lists(files, m.key);
        Bootstrap.ApplyCreates(found.s, m.key, PlanFor(s.cr, Some(component), wanted.value, found.reply.stored.fields), files);
      }
    }
    var r := ReconcileObject(s, Some(component), m, remove);
    if LookedAt(found.s.w.log, |s.w.log|, m.key) && found.s.w.log <= r.s.w.log {
      LookedAtStays(found.s.w.log, r.s.w.log, |s.w.log|, |s.w.log|, m.key);
    }
  }

  /** Creating or removing a file, whatever fails and whoever interferes: unless the operator dies in it, every object
      is looked up, or was refused by its component before. */
  lemma {:induction false} EveryObjectGetsItsTurn(s: Sys, component: Component, ms: seq<Manifest>, remove: bool,
                                                  first: Option<Error>, i: nat)
    requires i < |ms|
    ensures var r := ReconcileManifests(s, component, ms, remove, first);
      && s.w.log <= r.s.w.log
      && (!r.flow.Killed? ==> LookedAt(r.s.w.log, |s.w.log|, ms[i].key) || (!remove && component.init(s.cr.spec, ms[i]).None?))
    decreases |ms|
  {
    hide ReconcileObject;
    var one := ReconcileObject(s, Some(component), ms[0], remove);
    ObjectIsLookedAt(s, component, ms[0], remove);
    if !one.flow.Killed? && |ms| > 1 {
      var error := FirstError(first, one.flow);
      var log := ReconcileManifests(one.s, component, ms[1..], remove, error).s.w.log;
      EveryObjectGetsItsTurn(one.s, component, ms[1..], remove, error, if i == 0 then 0 else i - 1);
      if i == 0 && LookedAt(one.s.w.log, |s.w.log|, ms[0].key) {
        LookedAtStays(one.s.w.log, log, |s.w.log|, |s.w.log|, ms[0].key);
      } else if i > 0 && LookedAt(log, |one.s.w.log|, ms[i].key) {
        LookedAtStays(log, log, |one.s.w.log|, |s.w.log|, ms[i].key);
      }
    }
  }
}
