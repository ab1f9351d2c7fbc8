/** What the three components put into their objects and when they write over what they find, spelled out object by
    object. */
module DeployedContent {
  import opened Basics
  import opened Strings
  import opened NvmeshConf
  import opened CoreConfigMap
  import opened Kube
  import opened Components
  import opened Objects
  import opened Convergence
  import opened Deployment

  // ---- core --------------------------------------------------------------------------------------

  /** The image of a container, by its name. */
  const IMAGES: map<string, string> := map[
    "mcs" := "nvmesh-mcs", "agent" := "nvmesh-mcs", "toma" := "nvmesh-toma",
    "tracer" := "nvmesh-tracer", "driver-container" := "nvmesh-driver-container"]

  /** The image the containers up to this one come to: that of the last one with a name of its own. */
  ghost predicate ImageIs(containers: seq<Container>, image: string)
  {
    || (image == "" && forall j :: 0 <= j < |containers| ==> containers[j].name !in IMAGES)
    || (exists k :: 0 <= k < |containers| && containers[k].name in IMAGES && IMAGES[containers[k].name] == image
         && forall j :: k < j < |containers| ==> containers[j].name !in IMAGES)
  }

  lemma ImageByName(name: string, before: string)
    ensures ImageFor(name, before) == if name in IMAGES then IMAGES[name] else before
  {
  }

  lemma {:induction false} LastImageMeans(containers: seq<Container>)
    ensures ImageIs(containers, LastImage(containers))
    decreases |containers|
  {
    hide ImageFor;
    if containers != [] {
      var n := |containers| - 1;
      var rest := containers[..n];
      LastImageMeans(rest);
      ImageByName(containers[n].name, LastImage(rest));
      if containers[n].name !in IMAGES && exists k :: 0 <= k < n && rest[k].name in IMAGES {
        var k :| 0 <= k < n && rest[k].name in IMAGES && IMAGES[rest[k].name] == LastImage(rest)
          && forall j :: k < j < n ==> rest[j].name !in IMAGES;
        assert containers[k] == rest[k];
        forall j | k < j < |containers| ensures containers[j].name !in IMAGES { if j < n { assert containers[j] == rest[j]; } }
      } else if containers[n].name !in IMAGES {
        forall j | 0 <= j < |containers| ensures containers[j].name !in IMAGES { if j < n { assert containers[j] == rest[j]; } }
      }
    }
  }

  /** A container as core deploys it: image by name, registry and tag, pull policy, version variables set, all other
      variables kept, and the debugging variable behind them if asked for. */
  lemma PreparedMeans(spec: DeploySpec, containers: seq<Container>, i: nat)
    requires i < |containers|
    ensures var c := containers[i]; var r := Prepared(spec, containers)[i];
      && r.name == c.name && r.pullPolicy == (if spec.pullAlways then "Always" else "IfNotPresent")
      && (exists image :: ImageIs(containers[..i + 1], image) && r.image == spec.coreRegistry + "/" + image + ":" + spec.coreTag)
      && |r.env| == |c.env| + (if spec.keepRunning then 1 else 0)
      && (forall j :: 0 <= j < |c.env| ==>
            r.env[j] == EnvVar(c.env[j].name, if c.env[j].name == "NVMESH_VERSION" then spec.coreVersion else c.env[j].value))
      && (spec.keepRunning ==> r.env[|c.env|] == EnvVar("KEEP_RUNNING_WHEN_FINISHED", "true"))
  {
    hide ImageIs;
    LastImageMeans(containers[..i + 1]);
  }

  /** What core wants to read in its objects: in its three DaemonSets the images and the version, in a ConfigMap every field
      it fills in and every setting. It looks at nothing else. */
  ghost predicate CoreContent(spec: Spec, m: Manifest, f: Fields)
  {
    && (m.key.kind == "DaemonSet" && m.key.name in {"nvmesh-mcs-agent", "nvmesh-client", "nvmesh-target"} ==>
         && |f.containers| == |m.fields.containers|
         && forall i :: 0 <= i < |f.containers| ==>
              && f.containers[i].image == Prepared(spec.deploy, m.fields.containers)[i].image
              && forall j :: 0 <= j < |f.containers[i].env| && f.containers[i].env[j].name == "NVMESH_VERSION" ==>
                   f.containers[i].env[j].value == spec.deploy.coreVersion)
    && (m.key.kind == "ConfigMap" ==>
         var ours := Expected(spec.core, m.fields.entries);
         && (forall k :: k in ours && k != "nvmesh.conf" ==> Lookup(f.entries, k) == ours[k])
         && forall k :: k in Parse(ours["nvmesh.conf"]) ==>
              Lookup(Parse(Lookup(f.entries, "nvmesh.conf")), k) == Parse(ours["nvmesh.conf"])[k])
  }

  lemma DaemonSetAgrees(spec: DeploySpec, expected: seq<Container>, found: seq<Container>)
    ensures !DaemonSetDiffers(spec, expected, found) <==>
      && |found| == |expected|
      && forall i :: 0 <= i < |found| ==>
           && found[i].image == expected[i].image
           && forall j :: 0 <= j < |found[i].env| && found[i].env[j].name == "NVMESH_VERSION" ==>
                found[i].env[j].value == spec.coreVersion
  {
  }

  lemma DataAgrees(expected: Data, found: Data)
    requires "nvmesh.conf" in expected
    ensures !DataDiffers(expected, found) <==>
      && (forall k :: k in expected && k != "nvmesh.conf" ==> Lookup(found, k) == expected[k])
      && forall k :: k in Parse(expected["nvmesh.conf"]) ==>
           Lookup(Parse(Lookup(found, "nvmesh.conf")), k) == Parse(expected["nvmesh.conf"])[k]
  {
    hide Parse;
    assert FieldDiffers("nvmesh.conf", expected, found) <==> NeedsUpdate(expected["nvmesh.conf"], Lookup(found, "nvmesh.conf"));
    if DataDiffers(expected, found) {
      var k :| k in expected && FieldDiffers(k, expected, found);
    } else {
      forall k | k in expected && k != "nvmesh.conf" ensures Lookup(found, k) == expected[k] {
        assert !FieldDiffers(k, expected, found);
      }
    }
  }

  /** Core is content with an object exactly if it reads so, and otherwise writes what it would deploy; into a ConfigMap
      with the settings that are there kept where it has none of its own. */
  lemma CoreWritesExactly(spec: Spec, m: Manifest, f: Fields)
    ensures var wanted := CoreInit(spec, m).value; var plan := CorePlan(spec, Manifest(m.key, wanted), f);
      && CoreInit(spec, m).Some?
      && (Settled(CoreComponent(), spec, m, f) <==> CoreContent(spec, m, f))
      && plan == (
           if CoreContent(spec, m, f) then Leave
           else if m.key.kind == "DaemonSet" then Write(wanted)
           else Write(wanted.(entries := wanted.entries["nvmesh.conf" :=
             Print(Parse(Lookup(f.entries, "nvmesh.conf")) + Parse(wanted.entries["nvmesh.conf"]))])))
      && wanted == m.fields.(containers := wanted.containers, entries := wanted.entries)
      && wanted.containers == (if m.key.kind == "DaemonSet" then Prepared(spec.deploy, m.fields.containers) else m.fields.containers)
      && wanted.entries == (if m.key.kind == "ConfigMap" then Expected(spec.core, m.fields.entries) else m.fields.entries)
  {
    hide Prepared, DaemonSetDiffers, DataDiffers, Parse, Print, Settings;
    assert "ConfigMap"[0] != "DaemonSet"[0];
    DaemonSetAgrees(spec.deploy, Prepared(spec.deploy, m.fields.containers), f.containers);
    assert "nvmesh.conf" in Expected(spec.core, m.fields.entries);
    DataAgrees(Expected(spec.core, m.fields.entries), f.entries);
  }

  // ---- CSI ---------------------------------------------------------------------------------------

  /** The first container's image and pull policy; without containers there are none. */
  predicate FirstIs(f: Fields, image: string, pullPolicy: string)
  {
    if f.containers == [] then image == "" && pullPolicy == ""
    else f.containers[0].image == image && f.containers[0].pullPolicy == pullPolicy
  }

  /** The driver's image and pull policy, in a manifest that has a container to run it in. */
  function DriverImage(deploy: DeploySpec, m: Manifest): string
  {
    if m.fields.containers == [] then ""
    else (if deploy.csiRegistry == "" then "excelero" else deploy.csiRegistry) + "/nvmesh-csi-driver:" + deploy.csiVersion
  }

  function DriverPolicy(deploy: DeploySpec, m: Manifest): string
  {
    if m.fields.containers == [] then "" else if deploy.pullAlways then "Always" else "IfNotPresent"
  }

  /** What CSI wants to read: the driver's image, the controller's replicas, the node driver's pull policy. */
  ghost predicate CsiContent(spec: Spec, m: Manifest, f: Fields)
  {
    && (m.key == Key("StatefulSet", "nvmesh-csi-controller") ==>
         && spec.deploy.csiVersion != "" && f.replicas == spec.deploy.csiReplicas
         && exists policy :: FirstIs(f, DriverImage(spec.deploy, m), policy))
    && (m.key == Key("DaemonSet", "nvmesh-csi-node-driver") ==>
         && spec.deploy.csiVersion != "" && FirstIs(f, DriverImage(spec.deploy, m), DriverPolicy(spec.deploy, m)))
  }

  lemma FirstByParts(f: Fields, image: string)
    ensures (exists policy :: FirstIs(f, image, policy)) <==> FirstImage(f) == image
    ensures forall policy :: FirstIs(f, image, policy) <==> FirstImage(f) == image && FirstPullPolicy(f) == policy
  {
    assert FirstIs(f, FirstImage(f), FirstPullPolicy(f));
  }

  /** Without a CSI version its two workloads are refused. Otherwise CSI is content with an object exactly if it reads as
      wanted, and else writes what it would deploy: the manifest with image, pull policy and replicas, or, in a ConfigMap,
      with the address of management. */
  lemma CsiWritesExactly(spec: Spec, m: Manifest, f: Fields)
    ensures var workload := m.key in {Key("StatefulSet", "nvmesh-csi-controller"), Key("DaemonSet", "nvmesh-csi-node-driver")};
      && (CsiInit(spec, m).None? <==> workload && spec.deploy.csiVersion == "")
      && (Settled(CsiComponent(), spec, m, f) <==> CsiContent(spec, m, f))
      && (CsiInit(spec, m).Some? ==>
           var wanted := CsiInit(spec, m).value;
           && CsiPlan(spec, Manifest(m.key, wanted), f) == (if CsiContent(spec, m, f) then Leave else Write(wanted))
           && wanted == m.fields.(containers := wanted.containers, replicas := wanted.replicas, entries := wanted.entries)
           && (workload ==> FirstIs(wanted, DriverImage(spec.deploy, m), DriverPolicy(spec.deploy, m)))
           && |wanted.containers| == |m.fields.containers|
           && (!workload ==> wanted.containers == m.fields.containers)
           && (forall i :: 0 < i < |wanted.containers| ==> wanted.containers[i] == m.fields.containers[i])
           && wanted.replicas ==
                (if m.key == Key("StatefulSet", "nvmesh-csi-controller") then spec.deploy.csiReplicas else m.fields.replicas)
           && wanted.entries ==
                if m.key.kind != "ConfigMap" then m.fields.entries
                else m.fields.entries["management.protocol" := "https"][
                  "management.servers" := "nvmesh-management-gui." + spec.core.namespace + ".svc.cluster.local:4000"])
  {
    assert CSI_CONTROLLER.kind[0] == 'S' && CSI_NODE_DRIVER.kind[0] == 'D' && "ConfigMap"[0] == 'C';
    var image := DriverImage(spec.deploy, m);
    FirstByParts(f, image);
    if CsiInit(spec, m).Some? { FirstByParts(CsiInit(spec, m).value, image); }
  }

  // ---- management and mongo ----------------------------------------------------------------------

  /** The addresses of the GUI service: the spec's, or else the manifest's. */
  function WantedAddresses(deploy: DeploySpec, m: Manifest): Option<seq<string>>
  {
    if deploy.externalIPs.Some? then deploy.externalIPs else m.fields.externalIPs
  }

  function Elements(list: Option<seq<string>>): set<string>
  {
    if list.None? then {} else set x | x in list.value
  }

  function IfAny(m: Manifest, image: string): string
  {
    if m.fields.containers == [] then "" else image
  }

  function ServerImage(deploy: DeploySpec): string
  {
    deploy.mgmtRegistry + "/nvmesh-management:" + deploy.mgmtVersion
  }

  function MongoImage(deploy: DeploySpec): string
  {
    deploy.coreRegistry + "/nvmesh-mongo-instance:" + deploy.coreTag
  }

  /** What management wants to read: the images, the replicas, the configuration text, and the set of addresses if there
      is one to compare with. */
  ghost predicate MgmtContent(spec: Spec, m: Manifest, f: Fields)
  {
    var deploy := spec.deploy;
    && (m.key == Key("StatefulSet", "nvmesh-management") ==>
         && deploy.mgmtVersion != "" && f.replicas == spec.core.mgmtReplicas
         && exists policy :: FirstIs(f, IfAny(m, ServerImage(deploy)), policy))
    && (m.key == Key("StatefulSet", "mongo") ==>
         exists policy :: FirstIs(f, IfAny(m, MongoImage(deploy)), policy))
    && (m.key == Key("ConfigMap", "nvmesh-mgmt-config") ==>
         (if "config" in f.entries then f.entries["config"] else "") == deploy.mgmtConfig)
    && (m.key == Key("Service", "nvmesh-management-gui") && WantedAddresses(deploy, m).Some? ==>
         Elements(WantedAddresses(deploy, m)) == Elements(f.externalIPs))
  }

  lemma MgmtKeysApart()
    ensures MGMT_CONFIG.kind[0] == 'C' && MGMT_SERVER.kind[0] == 'S' && MONGO.kind[0] == 'S' && MGMT_GUI.kind[0] == 'S'
    ensures MGMT_SERVER.kind[1] == 't' && MONGO.kind[1] == 't' && MGMT_GUI.kind[1] == 'e'
    ensures MGMT_SERVER.name[0] == 'n' && MONGO.name[0] == 'm'
  {
  }

  /** Without a version management's server is refused. Otherwise management is content with an object exactly if it reads
      as wanted, and else writes what it would deploy: the ConfigMap on the side, the service with the cluster address it
      was given. */
  lemma MgmtWritesExactly(spec: Spec, m: Manifest, f: Fields)
    ensures
      && (MgmtInit(spec, m).None? <==> m.key == Key("StatefulSet", "nvmesh-management") && spec.deploy.mgmtVersion == "")
      && (Settled(MgmtComponent(), spec, m, f) <==> MgmtContent(spec, m, f))
      && (MgmtInit(spec, m).Some? ==>
           var wanted := MgmtInit(spec, m).value;
           MgmtPlan(spec, Manifest(m.key, wanted), f) == (
             if MgmtContent(spec, m, f) then Leave
             else if m.key == Key("ConfigMap", "nvmesh-mgmt-config") then WriteAndRestart(wanted)
             else if m.key == Key("Service", "nvmesh-management-gui") then Write(wanted.(clusterIP := f.clusterIP))
             else Write(wanted)))
  {
    MgmtKeysApart();
    MgmtReads(spec, m, f);
    if MgmtInit(spec, m).Some? { MgmtFillsIn(spec, m); }
    hide MgmtContent, WithFirst, WithKeepRunning, MgmtImage, CoreImage;
  }

  lemma MgmtReads(spec: Spec, m: Manifest, f: Fields)
    ensures var deploy := spec.deploy;
      MgmtContent(spec, m, f) <==>
        && (m.key == MGMT_SERVER ==>
             deploy.mgmtVersion != "" && f.replicas == spec.core.mgmtReplicas && FirstImage(f) == IfAny(m, ServerImage(deploy)))
        && (m.key == MONGO ==> FirstImage(f) == IfAny(m, MongoImage(deploy)))
        && (m.key == MGMT_CONFIG ==> ConfigText(f) == deploy.mgmtConfig)
        && (m.key == MGMT_GUI && WantedAddresses(deploy, m).Some? ==> Elements(WantedAddresses(deploy, m)) == Addresses(f))
  {
    FirstByParts(f, IfAny(m, ServerImage(spec.deploy)));
    FirstByParts(f, IfAny(m, MongoImage(spec.deploy)));
  }

  /** What management deploys, field by field. */
  lemma MgmtFillsIn(spec: Spec, m: Manifest)
    requires MgmtInit(spec, m).Some?
    ensures var wanted := MgmtInit(spec, m).value; var deploy := spec.deploy;
      var server, mongo := m.key == Key("StatefulSet", "nvmesh-management"), m.key == Key("StatefulSet", "mongo");
      && wanted == m.fields.(containers := wanted.containers, replicas := wanted.replicas, entries := wanted.entries,
                             externalIPs := wanted.externalIPs)
      && |wanted.containers| == |m.fields.containers|
      && (forall i :: 0 < i < |wanted.containers| ==> wanted.containers[i] == m.fields.containers[i])
      && (wanted.containers != [] ==>
           var c := m.fields.containers[0];
           wanted.containers[0] == (
             if server then c.(image := ServerImage(deploy),
                               env := c.env + if deploy.keepRunning then [EnvVar("KEEP_RUNNING_WHEN_FINISHED", "true")] else [])
             else if mongo then c.(image := MongoImage(deploy))
             else c))
      && wanted.replicas == (if server then spec.core.mgmtReplicas else m.fields.replicas)
      && wanted.entries == (
           if m.key != Key("ConfigMap", "nvmesh-mgmt-config") then m.fields.entries
           else m.fields.entries["configVersion" := deploy.mgmtVersion]["config" := deploy.mgmtConfig])
      && wanted.externalIPs == (
           if m.key == Key("Service", "nvmesh-management-gui") then WantedAddresses(deploy, m) else m.fields.externalIPs)
  {
    MgmtKeysApart();
  }

  // ---- what is stored ----------------------------------------------------------------------------

  /** One object, deployed: after success it is as it was if that is what its component wants to read, and otherwise holds
      what the component writes; an object that was missing holds what the component fills in. */
  lemma StoredExactly(s: Sys, component: Component, m: Manifest)
    requires Undisturbed(s.ticks) && !RestartDue(component, s.cr.spec, m, Contents(s.w))
    requires EnsureObject(s, Some(component), m).flow == OK
    ensures var c, d := Contents(s.w), Contents(EnsureObject(s, Some(component), m).s.w);
      var wanted := component.init(s.cr.spec, m);
      && wanted.Some?
      && (m.key !in c ==> m.key in d && d[m.key] == wanted.value)
      && (m.key in c ==>
           var plan := component.plan(s.cr.spec, Manifest(m.key, wanted.value), c[m.key]);
           && m.key in d && (plan.Leave? ==> d[m.key] == c[m.key]) && (plan.Write? ==> d[m.key] == plan.fields))
  {
    hide Call, Apply;
    var wanted := Initialised(s.cr, Some(component), m);
    var found := Call(s, GetObject(m.key));
    CallStands(s, GetObject(m.key));
    if found.reply == Fails(NotFound) {
      CallStands(found.s, CreateObject(wanted.value));
    } else if found.reply.ObjectIs? {
      ApplyOne(found.s, m.key, PlanFor(s.cr, Some(component), wanted.value, found.reply.stored.fields));
    }
  }
}
