/** The nvmesh-core-config ConfigMap: what the operator expects in it, when it rewrites it, and what a reconcile does to
    the settings an administrator added. */
module CoreConfigMap {
  import opened Basics
  import opened Strings
  import opened NvmeshConf

  type Data = map<string, string>

  const CONF := "nvmesh.conf"
  const DEFAULT_FILE_SERVER := "https://repo.excelero.com/nvmesh/operator_binaries"

  datatype FileServer = FileServer(address: string, skipCheckCertificate: bool)

  datatype ExcludeDrives = ExcludeDrives(serialNumbers: Option<seq<string>>, devicePaths: Option<seq<string>>)

  datatype CoreSpec = CoreSpec(
    namespace: string,
    mgmtReplicas: int,
    fileServer: Option<FileServer>,
    tcpOnly: bool,
    configuredNICs: string,
    azureOptimized: bool,
    excludeDrives: Option<ExcludeDrives>,
    moduleParams: string)

  // ---- the expected content ------------------------------------------------------------------

  function Digits(n: nat): (text: string)
    ensures '\n' !in text
  {
    if n < 10 then ["0123456789"[n]] else Digits(n / 10) + ["0123456789"[n % 10]]
  }

  function FormatBool(b: bool): string
  {
    if b then "true" else "false"
  }

  function Quoted(value: string): string
  {
    ['"'] + value + ['"']
  }

  function ManagementServer(i: nat, namespace: string): string
  {
    "nvmesh-management-" + Digits(i) + ".nvmesh-management-ws." + namespace + ".svc.cluster.local:4001"
  }

  function ManagementServers(namespace: string, replicas: int): seq<string>
    decreases if replicas > 0 then replicas else 0
  {
    if replicas <= 0 then []
    else ManagementServers(namespace, replicas - 1) + [ManagementServer(replicas - 1, namespace)]
  }

  function ManagementSettings(spec: CoreSpec): Dict
  {
    map["MANAGEMENT_SERVERS" := Quoted(Join(ManagementServers(spec.namespace, spec.mgmtReplicas), ','))]
  }

  function TcpSettings(spec: CoreSpec): Dict
  {
    if spec.tcpOnly then
      map["IPV4_ONLY" := Quoted("Yes"), "TCP_ENABLED" := Quoted("Yes"), "CONFIGURED_NICS" := Quoted(spec.configuredNICs)]
    else map[]
  }

  function CloudSettings(spec: CoreSpec): Dict
  {
    if spec.azureOptimized then
      map["CLOUD_OPTIMIZED" := Quoted("Yes"), "TOMA_CLOUD_MODE" := Quoted("Yes"), "AGENT_CLOUD_MODE" := Quoted("Yes")]
    else map[]
  }

  function ExcludeList(key: string, entries: Option<seq<string>>): Dict
  {
    if entries.Some? then map[key := Quoted(Join(entries.value, ','))] else map[]
  }

  function ExcludeSettings(spec: CoreSpec): Dict
  {
    if spec.excludeDrives.None? then map[]
    else (
      var drives := spec.excludeDrives.value;
      ExcludeList("EXCLUDE_DRIVE_SERIALS", drives.serialNumbers) + ExcludeList("EXCLUDE_DEVICE_PATHS", drives.devicePaths))
  }

  /** The nvmesh.conf settings that a spec turns on. */
  function Settings(spec: CoreSpec): Dict
  {
    ManagementSettings(spec) + TcpSettings(spec) + CloudSettings(spec) + ExcludeSettings(spec)
  }

  const MANAGED_KEYS: set<string> := {
    "MANAGEMENT_SERVERS", "IPV4_ONLY", "TCP_ENABLED", "CONFIGURED_NICS", "CLOUD_OPTIMIZED",
    "TOMA_CLOUD_MODE", "AGENT_CLOUD_MODE", "EXCLUDE_DRIVE_SERIALS", "EXCLUDE_DEVICE_PATHS" }

  function FileServerAddress(spec: CoreSpec): string
  {
    if spec.fileServer.Some? && spec.fileServer.value.address != "" then spec.fileServer.value.address
    else DEFAULT_FILE_SERVER
  }

  function SkipCheckCertificate(spec: CoreSpec): bool
  {
    spec.fileServer.Some? && spec.fileServer.value.skipCheckCertificate
  }

  /** The ConfigMap data the operator derives from the shipped manifest and the spec. */
  ghost function Expected(spec: CoreSpec, manifest: Data): Data
  {
    manifest[
      "fileServer.address" := FileServerAddress(spec)][
      "fileServer.skipCheckCertificate" := FormatBool(SkipCheckCertificate(spec))][
      "modprobe.d" := spec.moduleParams][
      CONF := Print(Parse(Lookup(manifest, CONF)) + Settings(spec))]
  }

  ghost function MergedData(expected: Data, found: Data): Data
  {
    if CONF in expected then expected[CONF := Merged(expected[CONF], Lookup(found, CONF))] else expected
  }

  ghost predicate FieldDiffers(field: string, expected: Data, found: Data)
    requires field in expected
  {
    if field == CONF then NeedsUpdate(expected[CONF], Lookup(found, CONF))
    else expected[field] != Lookup(found, field)
  }

  ghost predicate DataDiffers(expected: Data, found: Data)
  {
    exists field :: field in expected && FieldDiffers(field, expected, found)
  }

  class ConfigMap {
    var data: Data

    constructor (data: Data)
      ensures this.data == data
    {
      this.data := data;
    }

    method InitCoreConfigMap(spec: CoreSpec)
      modifies this
      ensures data == Expected(spec, old(data))
    {
      if spec.fileServer.Some? && spec.fileServer.value.address != "" {
        data := data["fileServer.address" := spec.fileServer.value.address];
      } else {
        data := data["fileServer.address" := DEFAULT_FILE_SERVER];
      }
      data := data["fileServer.skipCheckCertificate" := FormatBool(SkipCheckCertificate(spec))];
      var configDict := ConfigStringToDict(Lookup(data, CONF));
      configDict := ApplySettings(spec, configDict);
      data := data["modprobe.d" := spec.moduleParams];
      var text := ConfigDictToString(configDict);
      data := data[CONF := text];
    }

    /** Decides whether this found ConfigMap needs a rewrite, and puts the merged conf into `expected`. */
    method ShouldUpdateCoreConfigMap(expected: ConfigMap) returns (shouldUpdate: bool)
      requires expected != this
      modifies expected
      ensures shouldUpdate <==> DataDiffers(old(expected.data), data)
      ensures expected.data == MergedData(old(expected.data), data)
    {
      hide NeedsUpdate, Merged;
      shouldUpdate := false;
      var fields := MapKeys(expected.data);
      ghost var before := expected.data;
      for i := 0 to |fields|
        invariant expected.data.Keys == before.Keys
        invariant expected.data == if CONF in fields[..i] then MergedData(before, data) else before
        invariant shouldUpdate <==> exists j :: 0 <= j < i && FieldDiffers(fields[j], before, data)
      {
        var field := fields[i];
        assert fields[..i + 1] == fields[..i] + [field];
        if field == CONF {
          var updateConf, text := ShouldUpdateNVMeshConf(expected.data[field], Lookup(data, field));
          expected.data := expected.data[field := text];
          shouldUpdate := shouldUpdate || updateConf;
        } else if expected.data[field] != Lookup(data, field) {
          shouldUpdate := true;
        }
      }
      assert fields[..|fields|] == fields;
      assert forall k :: k in before ==> k in fields;
    }
  }

  method ApplyTcpSettings(spec: CoreSpec, base: Dict) returns (configDict: Dict)
    ensures configDict == base + TcpSettings(spec)
  {
    configDict := base;
    if spec.tcpOnly {
      configDict := configDict["IPV4_ONLY" := Quoted("Yes")];
      configDict := configDict["TCP_ENABLED" := Quoted("Yes")];
      configDict := configDict["CONFIGURED_NICS" := Quoted(spec.configuredNICs)];
    }
  }

  method ApplyCloudSettings(spec: CoreSpec, base: Dict) returns (configDict: Dict)
    ensures configDict == base + CloudSettings(spec)
  {
    configDict := base;
    if spec.azureOptimized {
      configDict := configDict["CLOUD_OPTIMIZED" := Quoted("Yes")];
      configDict := configDict["TOMA_CLOUD_MODE" := Quoted("Yes")];
      configDict := configDict["AGENT_CLOUD_MODE" := Quoted("Yes")];
    }
  }

  method ApplyExcludeSettings(spec: CoreSpec, base: Dict) returns (configDict: Dict)
    ensures configDict == base + ExcludeSettings(spec)
  {
    configDict := base;
    if spec.excludeDrives.Some? {
      var drives := spec.excludeDrives.value;
      if drives.serialNumbers.Some? {
        configDict := configDict["EXCLUDE_DRIVE_SERIALS" := Quoted(Join(drives.serialNumbers.value, ','))];
      }
      if drives.devicePaths.Some? {
        configDict := configDict["EXCLUDE_DEVICE_PATHS" := Quoted(Join(drives.devicePaths.value, ','))];
      }
    }
  }

  method ApplySettings(spec: CoreSpec, base: Dict) returns (configDict: Dict)
    ensures configDict == base + Settings(spec)
  {
    configDict := base["MANAGEMENT_SERVERS" := Quoted(Join(ManagementServers(spec.namespace, spec.mgmtReplicas), ','))];
    assert configDict == base + ManagementSettings(spec);
    configDict := ApplyTcpSettings(spec, configDict);
    configDict := ApplyCloudSettings(spec, configDict);
    configDict := ApplyExcludeSettings(spec, configDict);
    OverlayAssociates(base, ManagementSettings(spec), TcpSettings(spec), CloudSettings(spec), ExcludeSettings(spec));
  }

  lemma OverlayAssociates(a: Dict, b: Dict, c: Dict, d: Dict, e: Dict)
    ensures (((a + b) + c) + d) + e == a + (((b + c) + d) + e)
  {
  }

  // ---- what the expected text means ----------------------------------------------------------

  /** No line break among the values this spec writes into nvmesh.conf. */
  ghost predicate OneLineValues(spec: CoreSpec)
  {
    forall k :: k in Settings(spec) ==> '\n' !in Settings(spec)[k]
  }

  lemma ManagedKeysAreClean()
    ensures forall k :: k in MANAGED_KEYS ==> '=' !in k && '\n' !in k
  {
  }

  lemma SettingsKeys(spec: CoreSpec)
    ensures Settings(spec).Keys <= MANAGED_KEYS
    ensures forall k :: k in MANAGED_KEYS ==> '=' !in k && '\n' !in k
  {
    ManagedKeysAreClean();
    assert TcpSettings(spec).Keys <= MANAGED_KEYS;
    assert CloudSettings(spec).Keys <= MANAGED_KEYS;
    assert ExcludeSettings(spec).Keys <= MANAGED_KEYS;
  }

  /** Reading digits as a number. */
  function Value(text: string): int
  {
    if text == "" then 0 else 10 * Value(text[..|text| - 1]) + (text[|text| - 1] as int - '0' as int)
  }

  lemma {:induction false} DigitsMean(n: nat)
    ensures Value(Digits(n)) == n && Digits(n) != "" && (n > 0 ==> Digits(n)[0] != '0')
  {
    var last := "0123456789"[n % 10];
    if n < 10 {
      assert Digits(n)[..0] == "";
    } else {
      DigitsMean(n / 10);
      assert Digits(n)[..|Digits(n)| - 1] == Digits(n / 10);
    }
  }

  /** One management server per replica, numbered from zero. */
  lemma {:induction false} ServersMean(namespace: string, replicas: int)
    ensures var servers := ManagementServers(namespace, replicas);
      && |servers| == (if replicas > 0 then replicas else 0)
      && forall i :: 0 <= i < |servers| ==>
           servers[i] == "nvmesh-management-" + Digits(i) + ".nvmesh-management-ws." + namespace + ".svc.cluster.local:4001"
    decreases if replicas > 0 then replicas else 0
  {
    hide ManagementServer, Digits;
    if replicas > 0 {
      ServersMean(namespace, replicas - 1);
      ServerMeans(namespace, replicas - 1);
    }
  }

  lemma ServerMeans(namespace: string, i: nat)
    ensures ManagementServer(i, namespace) ==
      "nvmesh-management-" + Digits(i) + ".nvmesh-management-ws." + namespace + ".svc.cluster.local:4001"
  {
  }

  function InQuotes(value: string): string
  {
    "\"" + value + "\""
  }

  /** What a spec says about the network, key by key. */
  lemma TcpMeans(spec: CoreSpec)
    ensures var d := Settings(spec);
      && ("IPV4_ONLY" in d <==> spec.tcpOnly) && ("IPV4_ONLY" in d ==> d["IPV4_ONLY"] == InQuotes("Yes"))
      && ("TCP_ENABLED" in d <==> spec.tcpOnly) && ("TCP_ENABLED" in d ==> d["TCP_ENABLED"] == InQuotes("Yes"))
      && ("CONFIGURED_NICS" in d <==> spec.tcpOnly)
      && ("CONFIGURED_NICS" in d ==> d["CONFIGURED_NICS"] == InQuotes(spec.configuredNICs))
  {
    hide ManagementSettings, CloudSettings, ExcludeSettings, InQuotes, Quoted;
    TcpAlone(spec);
    TcpKeys(spec);
    SameQuotes();
  }

  lemma TcpAlone(spec: CoreSpec)
    ensures forall k :: k in {"IPV4_ONLY", "TCP_ENABLED", "CONFIGURED_NICS"} ==>
      k !in ManagementSettings(spec) && k !in CloudSettings(spec) && k !in ExcludeSettings(spec)
  {
    hide ManagementServers, Join, ExcludeSettings, Quoted;
    ExcludeKeys(spec);
    KeysApart();
  }

  lemma TcpKeys(spec: CoreSpec)
    ensures var d := TcpSettings(spec);
      && d.Keys == (if spec.tcpOnly then {"IPV4_ONLY", "TCP_ENABLED", "CONFIGURED_NICS"} else {})
      && (spec.tcpOnly ==>
            d["IPV4_ONLY"] == Quoted("Yes") && d["TCP_ENABLED"] == Quoted("Yes") && d["CONFIGURED_NICS"] == Quoted(spec.configuredNICs))
  {
    hide Quoted;
    KeysApart();
  }

  lemma SameQuotes()
    ensures forall value: string :: Quoted(value) == InQuotes(value)
  {
  }

  /** And about running in a cloud. */
  lemma CloudMeans(spec: CoreSpec)
    ensures var d := Settings(spec);
      && ("CLOUD_OPTIMIZED" in d <==> spec.azureOptimized) && ("CLOUD_OPTIMIZED" in d ==> d["CLOUD_OPTIMIZED"] == InQuotes("Yes"))
      && ("TOMA_CLOUD_MODE" in d <==> spec.azureOptimized) && ("TOMA_CLOUD_MODE" in d ==> d["TOMA_CLOUD_MODE"] == InQuotes("Yes"))
      && ("AGENT_CLOUD_MODE" in d <==> spec.azureOptimized) && ("AGENT_CLOUD_MODE" in d ==> d["AGENT_CLOUD_MODE"] == InQuotes("Yes"))
  {
    hide ManagementSettings, TcpSettings, ExcludeSettings, InQuotes, Quoted;
    CloudAlone(spec);
    CloudKeys(spec);
    SameQuotes();
  }

  lemma CloudAlone(spec: CoreSpec)
    ensures forall k :: k in {"CLOUD_OPTIMIZED", "TOMA_CLOUD_MODE", "AGENT_CLOUD_MODE"} ==>
      k !in ManagementSettings(spec) && k !in TcpSettings(spec) && k !in ExcludeSettings(spec)
  {
    hide ManagementServers, Join, ExcludeSettings, Quoted;
    ExcludeKeys(spec);
    KeysApart();
  }

  lemma CloudKeys(spec: CoreSpec)
    ensures var d := CloudSettings(spec);
      && d.Keys == (if spec.azureOptimized then {"CLOUD_OPTIMIZED", "TOMA_CLOUD_MODE", "AGENT_CLOUD_MODE"} else {})
      && (spec.azureOptimized ==>
            d["CLOUD_OPTIMIZED"] == Quoted("Yes") && d["TOMA_CLOUD_MODE"] == Quoted("Yes") && d["AGENT_CLOUD_MODE"] == Quoted("Yes"))
  {
    hide Quoted;
    KeysApart();
  }

  /** The management servers, always. */
  lemma ManagementMeans(spec: CoreSpec)
    ensures var d := Settings(spec);
      && "MANAGEMENT_SERVERS" in d
      && d["MANAGEMENT_SERVERS"] == InQuotes(Join(ManagementServers(spec.namespace, spec.mgmtReplicas), ','))
  {
    hide ManagementServers, Join, ExcludeSettings;
    ExcludeKeys(spec);
    KeysApart();
  }

  lemma ExcludeKeys(spec: CoreSpec)
    ensures ExcludeSettings(spec).Keys <= {"EXCLUDE_DRIVE_SERIALS", "EXCLUDE_DEVICE_PATHS"}
  {
  }

  lemma KeysApart()
    ensures "IPV4_ONLY"[0] == 'I' && "TCP_ENABLED"[1] == 'C' && "TOMA_CLOUD_MODE"[1] == 'O' && "CLOUD_OPTIMIZED"[1] == 'L'
    ensures "CONFIGURED_NICS"[1] == 'O' && "AGENT_CLOUD_MODE"[0] == 'A' && "MANAGEMENT_SERVERS"[0] == 'M'
    ensures "EXCLUDE_DRIVE_SERIALS"[9] == 'R' && "EXCLUDE_DEVICE_PATHS"[9] == 'E'
  {
  }

  /** The drives to exclude, by serial and by path, each only if the spec lists them. */
  lemma ExclusionsMean(spec: CoreSpec)
    ensures var d := Settings(spec); var drives := spec.excludeDrives;
      && ("EXCLUDE_DRIVE_SERIALS" in d <==> drives.Some? && drives.value.serialNumbers.Some?)
      && ("EXCLUDE_DRIVE_SERIALS" in d ==> d["EXCLUDE_DRIVE_SERIALS"] == InQuotes(Join(drives.value.serialNumbers.value, ',')))
      && ("EXCLUDE_DEVICE_PATHS" in d <==> drives.Some? && drives.value.devicePaths.Some?)
      && ("EXCLUDE_DEVICE_PATHS" in d ==> d["EXCLUDE_DEVICE_PATHS"] == InQuotes(Join(drives.value.devicePaths.value, ',')))
  {
    hide ManagementSettings, TcpSettings, CloudSettings, Join;
    ExclusionsAlone(spec);
    KeysApart();
  }

  lemma ExclusionsAlone(spec: CoreSpec)
    ensures forall k :: k in {"EXCLUDE_DRIVE_SERIALS", "EXCLUDE_DEVICE_PATHS"} ==>
      k !in ManagementSettings(spec) && k !in TcpSettings(spec) && k !in CloudSettings(spec)
  {
    hide ManagementServers, Join, Quoted;
    KeysApart();
  }

  /** The fields beside nvmesh.conf. */
  lemma FieldsMean(spec: CoreSpec, manifest: Data)
    ensures var d := Expected(spec, manifest);
      && {"fileServer.address", "fileServer.skipCheckCertificate", "modprobe.d", "nvmesh.conf"} <= d.Keys
      && d["fileServer.address"] == (
           if spec.fileServer.Some? && spec.fileServer.value.address != "" then spec.fileServer.value.address
           else "https://repo.excelero.com/nvmesh/operator_binaries")
      && d["fileServer.skipCheckCertificate"] == (
           if spec.fileServer.Some? && spec.fileServer.value.skipCheckCertificate then "true" else "false")
      && d["modprobe.d"] == spec.moduleParams
      && (forall k :: k in manifest && k !in {"fileServer.address", "fileServer.skipCheckCertificate", "modprobe.d", "nvmesh.conf"} ==>
            k in d && d[k] == manifest[k])
  {
    hide Print, Parse, Settings;
    assert "fileServer.address"[11] == 'a' && "fileServer.skipCheckCertificate"[11] == 's' && "modprobe.d"[0] == 'm' && CONF[0] == 'n';
  }

  /** A reader of the expected text sees the manifest's settings overlaid with the spec's, if and only if
      every value fits on one line. */
  lemma ExpectedConfExactly(spec: CoreSpec, manifest: Data)
    ensures Parse(Expected(spec, manifest)[CONF]) == Parse(Lookup(manifest, CONF)) + Settings(spec)
       <==> OneLineValues(spec)
  {
    var base := Parse(Lookup(manifest, CONF));
    var d := base + Settings(spec);
    ParseYieldsPrintable(Lookup(manifest, CONF));
    SettingsKeys(spec);
    RoundTripExactly(d);
    assert "MANAGEMENT_SERVERS" in d;
    if OneLineValues(spec) {
      assert Printable(d);
    } else {
      var k :| k in Settings(spec) && '\n' in Settings(spec)[k];
      assert k in d && d[k] == Settings(spec)[k];
    }
  }

  // ---- reconciling ----------------------------------------------------------------------------

  /** The stored ConfigMap after one makeSureObjectExists pass without concurrent writers. */
  ghost function Reconciled(stored: Option<Data>, spec: CoreSpec, manifest: Data): Option<Data>
  {
    var expected := Expected(spec, manifest);
    if stored.None? then Some(expected)
    else if DataDiffers(expected, stored.value) then Some(MergedData(expected, stored.value))
    else stored
  }

  ghost predicate Writes(stored: Option<Data>, spec: CoreSpec, manifest: Data)
  {
    stored.None? || DataDiffers(Expected(spec, manifest), stored.value)
  }

  lemma NothingLeftToMerge(expected: Data, found: Data)
    requires CONF in expected
    ensures !DataDiffers(expected, MergedData(expected, found))
  {
    MergeConverges(expected[CONF], Lookup(found, CONF));
  }

  lemma ExpectedMatchesItself(spec: CoreSpec, manifest: Data)
    ensures !DataDiffers(Expected(spec, manifest), Expected(spec, manifest))
  {
  }

  /** With the spec held fixed, a second reconcile performs no write. */
  lemma SecondReconcileIsQuiet(stored: Option<Data>, spec: CoreSpec, manifest: Data)
    ensures !Writes(Reconciled(stored, spec, manifest), spec, manifest)
    ensures Reconciled(Reconciled(stored, spec, manifest), spec, manifest) == Reconciled(stored, spec, manifest)
  {
    var expected := Expected(spec, manifest);
    ExpectedMatchesItself(spec, manifest);
    if stored.Some? { NothingLeftToMerge(expected, stored.value); }
  }

  /** After one reconcile every expected field but nvmesh.conf reads as expected. */
  lemma ReconcileSetsFields(stored: Option<Data>, spec: CoreSpec, manifest: Data, field: string)
    requires field in Expected(spec, manifest) && field != CONF
    ensures var after := Reconciled(stored, spec, manifest); after.Some? && Lookup(after.value, field) == Expected(spec, manifest)[field]
  {
    hide Expected;
    var expected := Expected(spec, manifest);
    if stored.Some? && !DataDiffers(expected, stored.value) { assert !FieldDiffers(field, expected, stored.value); }
  }

  /** One reconcile: the spec's and the manifest's settings are in force, everything else reads as before. */
  lemma ReconcileOverlays(stored: Data, spec: CoreSpec, manifest: Data)
    requires OneLineValues(spec)
    ensures var after := Parse(Lookup(Reconciled(Some(stored), spec, manifest).value, CONF));
      var before := Parse(Lookup(stored, CONF));
      var ours := Parse(Lookup(manifest, CONF)) + Settings(spec);
      && (forall k :: k in ours ==> Lookup(after, k) == ours[k])
      && (forall k :: k !in ours ==> (k in after <==> k in before) && Lookup(after, k) == Lookup(before, k))
  {
    var expected := Expected(spec, manifest);
    ExpectedConfExactly(spec, manifest);
    MergedIsPrintable(expected[CONF], Lookup(stored, CONF));
    if !DataDiffers(expected, stored) {
      assert !FieldDiffers(CONF, expected, stored);
    }
  }
}
