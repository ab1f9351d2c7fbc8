/** How the core, CSI and management components fill in the objects they deploy and compare what they find. */
module Components {
  import opened Basics
  import opened Strings
  import opened CoreConfigMap
  import opened Kube

  // ---- core: the DaemonSets --------------------------------------------------------------------

  const VERSION_VAR := "NVMESH_VERSION"
  const KEEP_RUNNING := EnvVar("KEEP_RUNNING_WHEN_FINISHED", "true")

  function PullPolicy(spec: DeploySpec): string
  {
    if spec.pullAlways then "Always" else "IfNotPresent"
  }

  /** A container of another name gets the image of the one before it. */
  function ImageFor(container: string, before: string): string
  {
    if container == "mcs" || container == "agent" then "nvmesh-mcs"
    else if container == "toma" then "nvmesh-toma"
    else if container == "tracer" then "nvmesh-tracer"
    else if container == "driver-container" then "nvmesh-driver-container"
    else before
  }

  function CoreImage(spec: DeploySpec, name: string): string
  {
    spec.coreRegistry + "/" + name + ":" + spec.coreTag
  }

  function WithVersion(env: seq<EnvVar>, version: string): (r: seq<EnvVar>)
    ensures |r| == |env|
  {
    seq(|env|, i requires 0 <= i < |env| => if env[i].name == VERSION_VAR then env[i].(value := version) else env[i])
  }

  function Environment(spec: DeploySpec, env: seq<EnvVar>): seq<EnvVar>
  {
    WithVersion(env, spec.coreVersion) + if spec.keepRunning then [KEEP_RUNNING] else []
  }

  function LastImage(containers: seq<Container>): string
  {
    if containers == [] then ""
    else ImageFor(containers[|containers| - 1].name, LastImage(containers[..|containers| - 1]))
  }

  /** The containers as core deploys them. */
  function Prepared(spec: DeploySpec, containers: seq<Container>): (r: seq<Container>)
    ensures |r| == |containers|
  {
    seq(|containers|, i requires 0 <= i < |containers| =>
      containers[i].(image := CoreImage(spec, LastImage(containers[..i + 1])),
                     pullPolicy := PullPolicy(spec), env := Environment(spec, containers[i].env)))
  }

  predicate OtherVersion(env: seq<EnvVar>, version: string)
  {
    exists j :: 0 <= j < |env| && env[j].name == VERSION_VAR && env[j].value != version
  }

  /** Another number of containers, or a container with another image or a version variable of another version. */
  predicate DaemonSetDiffers(spec: DeploySpec, expected: seq<Container>, found: seq<Container>)
  {
    |found| != |expected| ||
    exists i :: 0 <= i < |found| && (found[i].image != expected[i].image || OtherVersion(found[i].env, spec.coreVersion))
  }

  class DaemonSet {
    var containers: seq<Container>

    constructor (containers: seq<Container>)
      ensures this.containers == containers
    {
      this.containers := containers;
    }

    method InitDaemonSets(spec: DeploySpec)
      modifies this
      ensures containers == Prepared(spec, old(containers))
    {
      var imageName := "";
      ghost var before := containers;
      for i := 0 to |containers|
        invariant |containers| == |before| && imageName == LastImage(before[..i])
        invariant forall j :: 0 <= j < i ==> containers[j] == Prepared(spec, before)[j]
        invariant forall j :: i <= j < |before| ==> containers[j] == before[j]
      {
        assert before[..i + 1][..i] == before[..i];
        var name := containers[i].name;
        if name == "mcs" { imageName := "nvmesh-mcs"; }
        else if name == "agent" { imageName := "nvmesh-mcs"; }
        else if name == "toma" { imageName := "nvmesh-toma"; }
        else if name == "tracer" { imageName := "nvmesh-tracer"; }
        else if name == "driver-container" { imageName := "nvmesh-driver-container"; }
        var env := SetEnvVariableValues(spec, containers[i].env);
        containers := containers[i := containers[i].(
          image := spec.coreRegistry + "/" + imageName + ":" + spec.coreTag, pullPolicy := PullPolicy(spec), env := env)];
      }
    }

    method ShouldUpdateDaemonSet(spec: DeploySpec, expected: DaemonSet) returns (shouldUpdate: bool)
      ensures shouldUpdate <==> DaemonSetDiffers(spec, expected.containers, containers)
    {
      if |containers| != |expected.containers| { return true; }
      for i := 0 to |containers|
        invariant forall k :: 0 <= k < i ==>
          containers[k].image == expected.containers[k].image && !OtherVersion(containers[k].env, spec.coreVersion)
      {
        if containers[i].image != expected.containers[i].image { return true; }
        var env := containers[i].env;
        for j := 0 to |env|
          invariant forall k :: 0 <= k < j ==> env[k].name == VERSION_VAR ==> env[k].value == spec.coreVersion
        {
          if env[j].name == VERSION_VAR {
            if env[j].value != spec.coreVersion {
              assert OtherVersion(containers[i].env, spec.coreVersion);
              return true;
            }
          }
        }
      }
      return false;
    }
  }

  method SetEnvVariableValues(spec: DeploySpec, vars: seq<EnvVar>) returns (env: seq<EnvVar>)
    ensures env == Environment(spec, vars)
  {
    env := vars;
    for i := 0 to |env|
      invariant |env| == |vars|
      invariant forall j :: 0 <= j < i ==> env[j] == WithVersion(vars, spec.coreVersion)[j]
      invariant forall j :: i <= j < |vars| ==> env[j] == vars[j]
    {
      if env[i].name == VERSION_VAR { env := env[i := env[i].(value := spec.coreVersion)]; }
    }
    assert env == WithVersion(vars, spec.coreVersion);
    if spec.keepRunning { env := env + [KEEP_RUNNING]; }
  }

  /** What core deploys it does not want to update: images agree, and so do the version variables. */
  lemma PreparedIsUpToDate(spec: DeploySpec, containers: seq<Container>)
    ensures !DaemonSetDiffers(spec, Prepared(spec, containers), Prepared(spec, containers))
  {
    var ready := Prepared(spec, containers);
    forall i | 0 <= i < |ready| ensures !OtherVersion(ready[i].env, spec.coreVersion) {
      var env := containers[i].env;
      assert KEEP_RUNNING.name[0] == 'K' && VERSION_VAR[0] == 'N';
      forall j | 0 <= j < |ready[i].env| && ready[i].env[j].name == VERSION_VAR
        ensures ready[i].env[j].value == spec.coreVersion
      {
        if j < |env| { assert ready[i].env[j] == WithVersion(env, spec.coreVersion)[j]; }
      }
    }
  }

  // ---- core: the component ---------------------------------------------------------------------

  const CORE_DAEMON_SETS := {"nvmesh-mcs-agent", "nvmesh-client", "nvmesh-target"}

  ghost function CoreInit(spec: Spec, m: Manifest): Option<Fields>
  {
    if m.key.kind == "DaemonSet" then Some(m.fields.(containers := Prepared(spec.deploy, m.fields.containers)))
    else if m.key.kind == "ConfigMap" then Some(m.fields.(entries := Expected(spec.core, m.fields.entries)))
    else Some(m.fields)
  }

  ghost function CorePlan(spec: Spec, wanted: Manifest, found: Fields): Plan
  {
    if wanted.key.kind == "DaemonSet" then
      if wanted.key.name in CORE_DAEMON_SETS && DaemonSetDiffers(spec.deploy, wanted.fields.containers, found.containers)
      then Write(wanted.fields) else Leave
    else if wanted.key.kind == "ConfigMap" then
      if DataDiffers(wanted.fields.entries, found.entries)
      then Write(wanted.fields.(entries := MergedData(wanted.fields.entries, found.entries))) else Leave
    else Leave
  }

  ghost function CoreComponent(): Component
  {
    Component((spec, m) => CoreInit(spec, m), (spec, wanted, found) => CorePlan(spec, wanted, found))
  }

  // ---- CSI -------------------------------------------------------------------------------------

  function CsiImage(spec: DeploySpec): string
  {
    (if spec.csiRegistry != "" then spec.csiRegistry else "excelero") + "/nvmesh-csi-driver:" + spec.csiVersion
  }

  function FirstImage(fields: Fields): string
  {
    if fields.containers == [] then "" else fields.containers[0].image
  }

  function FirstPullPolicy(fields: Fields): string
  {
    if fields.containers == [] then "" else fields.containers[0].pullPolicy
  }

  function WithFirst(fields: Fields, image: string, pullPolicy: Option<string>): Fields
  {
    if fields.containers == [] then fields
    else
      var c := fields.containers[0].(image := image);
      fields.(containers := fields.containers[0 := if pullPolicy.Some? then c.(pullPolicy := pullPolicy.value) else c])
  }

  const CSI_NODE_DRIVER := Key("DaemonSet", "nvmesh-csi-node-driver")
  const CSI_CONTROLLER := Key("StatefulSet", "nvmesh-csi-controller")

  /** Without a CSI version the two workloads are refused. */
  function CsiInit(spec: Spec, m: Manifest): Option<Fields>
  {
    var deploy := spec.deploy;
    if m.key == CSI_CONTROLLER || m.key == CSI_NODE_DRIVER then
      if deploy.csiVersion == "" then None
      else
        var ready := WithFirst(m.fields, CsiImage(deploy), Some(PullPolicy(deploy)));
        Some(if m.key == CSI_CONTROLLER then ready.(replicas := deploy.csiReplicas) else ready)
    else if m.key.kind == "ConfigMap" then
      Some(m.fields.(entries := m.fields.entries[
        "management.protocol" := "https"][
        "management.servers" := "nvmesh-management-gui." + spec.core.namespace + ".svc.cluster.local:4000"]))
    else Some(m.fields)
  }

  function CsiPlan(spec: Spec, wanted: Manifest, found: Fields): Plan
  {
    if wanted.key == CSI_CONTROLLER then
      if FirstImage(wanted.fields) != FirstImage(found) || wanted.fields.replicas != found.replicas
      then Write(wanted.fields) else Leave
    else if wanted.key == CSI_NODE_DRIVER then
      if FirstImage(wanted.fields) != FirstImage(found) || FirstPullPolicy(wanted.fields) != FirstPullPolicy(found)
      then Write(wanted.fields) else Leave
    else Leave
  }

  function CsiComponent(): Component
  {
    Component(CsiInit, CsiPlan)
  }

  // ---- management and mongo --------------------------------------------------------------------

  const MGMT_CONFIG := Key("ConfigMap", "nvmesh-mgmt-config")
  const MGMT_GUI := Key("Service", "nvmesh-management-gui")
  const MONGO := Key("StatefulSet", "mongo")
  const MGMT_SERVER := Key("StatefulSet", "nvmesh-management")

  function MgmtImage(spec: DeploySpec): string
  {
    spec.mgmtRegistry + "/nvmesh-management:" + spec.mgmtVersion
  }

  function WithKeepRunning(spec: DeploySpec, fields: Fields): Fields
  {
    if fields.containers == [] || !spec.keepRunning then fields
    else
      var c := fields.containers[0];
      fields.(containers := fields.containers[0 := c.(env := c.env + [KEEP_RUNNING])])
  }

  function MgmtInit(spec: Spec, m: Manifest): Option<Fields>
  {
    var deploy := spec.deploy;
    if m.key == MGMT_SERVER then
      if deploy.mgmtVersion == "" then None
      else Some(WithKeepRunning(deploy, WithFirst(m.fields, MgmtImage(deploy), None)).(replicas := spec.core.mgmtReplicas))
    else if m.key == MONGO then Some(WithFirst(m.fields, CoreImage(deploy, "nvmesh-mongo-instance"), None))
    else if m.key == MGMT_CONFIG then
      Some(m.fields.(entries := m.fields.entries["configVersion" := deploy.mgmtVersion]["config" := deploy.mgmtConfig]))
    else if m.key == MGMT_GUI && deploy.externalIPs.Some? then Some(m.fields.(externalIPs := deploy.externalIPs))
    else Some(m.fields)
  }

  function ConfigText(fields: Fields): string
  {
    if "config" in fields.entries then fields.entries["config"] else ""
  }

  function Addresses(fields: Fields): set<string>
  {
    if fields.externalIPs.None? then {} else set x | x in fields.externalIPs.value
  }

  /** Of the ConfigMap only the configuration text is compared: both tests of the code compare it, none the
      version. A change there is written on the side. The service keeps the cluster address it was given. */
  function MgmtPlan(spec: Spec, wanted: Manifest, found: Fields): Plan
  {
    if wanted.key == MGMT_SERVER then
      if FirstImage(wanted.fields) != FirstImage(found) || wanted.fields.replicas != found.replicas
      then Write(wanted.fields) else Leave
    else if wanted.key == MONGO then
      if FirstImage(wanted.fields) != FirstImage(found) then Write(wanted.fields) else Leave
    else if wanted.key == MGMT_CONFIG then
      if ConfigText(wanted.fields) != ConfigText(found) then WriteAndRestart(wanted.fields) else Leave
    else if wanted.key == MGMT_GUI then
      if wanted.fields.externalIPs.Some? && Addresses(wanted.fields) != Addresses(found)
      then Write(wanted.fields.(clusterIP := found.clusterIP)) else Leave
    else Leave
  }

  function MgmtComponent(): Component
  {
    Component(MgmtInit, MgmtPlan)
  }
}
