/** The objects the operator image ships meet what the other modules ask of them. */
module Shipment {
  import opened Basics
  import opened Kube
  import opened Runs

  const CORE_KEYS := [
    Key("ConfigMap", "nvmesh-core-config"), Key("DaemonSet", "nvmesh-mcs-agent"),
    Key("DaemonSet", "nvmesh-client"), Key("DaemonSet", "nvmesh-target")]

  const CSI_CONFIG_KEYS := [
    Key("ConfigMap", "nvmesh-csi-config"), Key("Secret", "nvmesh-csi-credentials"),
    Key("CSIDriver", "nvmesh-csi.excelero.com"), Key("ServiceAccount", "nvmesh-csi"),
    Key("Service", "nvmesh-csi-driver"),
    Key("DaemonSet", "nvmesh-csi-node-driver"), Key("StatefulSet", "nvmesh-csi-controller")]

  const CSI_ROLE_KEYS := [
    Key("ClusterRole", "external-provisioner-runner"), Key("ClusterRole", "external-resizer-runner"),
    Key("ClusterRoleBinding", "csi-provisioner-role"), Key("ClusterRoleBinding", "csi-resizer-role"),
    Key("Role", "external-provisioner-cfg"), Key("Role", "external-attacher-cfg"), Key("Role", "external-resizer-cfg"),
    Key("RoleBinding", "csi-provisioner-role-cfg"), Key("RoleBinding", "csi-attacher-role-cfg"),
    Key("RoleBinding", "csi-resizer-role-cfg")]

  const CSI_CLASS_KEYS := [
    Key("StorageClass", "nvmesh-concatenated"), Key("StorageClass", "nvmesh-raid0"),
    Key("StorageClass", "nvmesh-raid1"), Key("StorageClass", "nvmesh-raid10"),
    Key("StorageClass", "nvmesh-ec-dual-target-redundancy"), Key("StorageClass", "nvmesh-ec-single-target-redundancy")]

  const CSI_KEYS := CSI_CONFIG_KEYS + CSI_ROLE_KEYS + CSI_CLASS_KEYS

  const MGMT_KEYS := [
    Key("ConfigMap", "nvmesh-mgmt-config"), Key("Service", "nvmesh-management-ws"),
    Key("Service", "nvmesh-management-gui"), Key("StatefulSet", "nvmesh-management")]

  const MONGO_KEYS := [
    Key("Service", "mongo-svc"), Key("ConfigMap", "mongo-conf"), Key("StatefulSet", "mongo")]

  ghost predicate ListsJust(files: seq<YamlFile>, keys: seq<Key>)
  {
    forall k :: Lists(files, k) <==> k in keys
  }

  /** Resources with the shipped objects in them, however they are spread over files. */
  ghost predicate AsShipped(res: Resources)
  {
    ListsJust(res.core, CORE_KEYS) && ListsJust(res.csi, CSI_KEYS) && ListsJust(res.mgmt, MGMT_KEYS)
    && ListsJust(res.mongo, MONGO_KEYS)
  }

  /** Not a mongo object, not the service account or its role, not a volume claim. */
  predicate Distinct(k: Key)
  {
    && k.name != "" && k.name[0] != 'm' && |k.kind| < 21
    && (k.kind == "ServiceAccount" ==> |k.name| == 10)
    && (k.kind == "Role" || k.kind == "RoleBinding" ==> k.name[0] != 'n')
  }

  lemma CoreNames(k: Key)
    requires k in CORE_KEYS || k in MGMT_KEYS
    ensures Distinct(k)
  {
  }

  lemma CsiConfigNames(k: Key)
    requires k in CSI_CONFIG_KEYS
    ensures Distinct(k)
  {
  }

  lemma CsiRoleNames(k: Key)
    requires k in CSI_ROLE_KEYS
    ensures Distinct(k)
  {
  }

  lemma CsiClassNames(k: Key)
    requires k in CSI_CLASS_KEYS
    ensures Distinct(k)
  {
  }

  lemma WorkloadNames(k: Key)
    requires k in CORE_KEYS || k in CSI_KEYS || k in MGMT_KEYS
    ensures Distinct(k)
  {
    hide CORE_KEYS, MGMT_KEYS, CSI_CONFIG_KEYS, CSI_ROLE_KEYS, CSI_CLASS_KEYS, Distinct;
    if k in CORE_KEYS || k in MGMT_KEYS { CoreNames(k); }
    if k in CSI_CONFIG_KEYS { CsiConfigNames(k); }
    if k in CSI_ROLE_KEYS { CsiRoleNames(k); }
    if k in CSI_CLASS_KEYS { CsiClassNames(k); }
  }

  lemma MongoNames(k: Key)
    requires k in MONGO_KEYS
    ensures k.name != "" && k.name[0] == 'm' && |k.kind| < 21
  {
  }

  lemma WorkloadDaemonSets(c: string)
    requires IsWorkloadComponent(c)
    ensures DaemonSetOf(c) in CORE_KEYS || DaemonSetOf(c) in CSI_KEYS
  {
    if c == "client" { assert DaemonSetOf(c) == CORE_KEYS[2]; }
    else if c == "target" { assert DaemonSetOf(c) == CORE_KEYS[3]; }
    else if c == "mcs-agent" { assert DaemonSetOf(c) == CORE_KEYS[1]; }
    else { assert DaemonSetOf(c) == CSI_CONFIG_KEYS[5]; }
  }

  /** Every workload DaemonSet is shipped, no mongo object is listed anywhere else, and neither the service account
      nor a volume claim is listed at all. */
  lemma ShippedFits(res: Resources)
    requires AsShipped(res)
    ensures Shipped(res)
  {
    hide CORE_KEYS, MGMT_KEYS, MONGO_KEYS, CSI_KEYS;
    assert |PVC| == 21;
    forall k | Managed(res, k) ensures k.kind != PVC && k != SERVICE_ACCOUNT.key && k != CLUSTER_ROLE.key && k != ROLE_BINDING.key {
      assert |SERVICE_ACCOUNT.key.name| == 14 && CLUSTER_ROLE.key.name[0] == 'n' && ROLE_BINDING.key.name[0] == 'n';
      if Lists(res.mongo, k) { MongoNames(k); } else { WorkloadNames(k); }
    }
    forall k | Workload(res, k) ensures !Lists(res.mongo, k) {
      WorkloadNames(k);
      if k in MONGO_KEYS { MongoNames(k); }
    }
    forall c | IsWorkloadComponent(c) ensures Workload(res, DaemonSetOf(c)) { WorkloadDaemonSets(c); }
  }

  /** So every cluster with these resources in which no uninstall is recorded is the start of a run. */
  lemma FreshClusterBegins(w: World)
    requires AsShipped(w.res) && w.log == []
    requires w.cr.Some? ==> !w.cr.value.deleting && w.cr.value.version <= w.revision && w.cr.value.status.actions == map[]
    ensures Begins(w)
  {
    ShippedFits(w.res);
  }
}
