/**
 pkg/apis/v1alpha1: disk normalisation (disks_normalize.go), the defaulting webhook
 (ecsnodeclass_webhook.go) and the part of validation they interact with.
 */
module NodeClassDisks {
  import opened Wrappers

  datatype SystemDiskSpec = SystemDiskSpec(
    category: string, size: Option<int>, performanceLevel: Option<string>,
    encrypted: Option<bool>, kmsKeyID: Option<string>)

  datatype DataDiskSpec = DataDiskSpec(
    category: string, size: int, device: Option<string>, performanceLevel: Option<string>,
    encrypted: Option<bool>, kmsKeyID: Option<string>, snapshotID: Option<string>, deleteWithInstance: Option<bool>)

  datatype MetadataOptions = MetadataOptions(
    httpEndpoint: Option<string>, httpTokens: string, httpPutResponseHopLimit: Option<int>)

  /**
   `others` stands for the fields Default never writes: whether the tags, and whether the
   selectors, role, spot and kubelet settings pass their validators, and whether a launch
   template is combined with selectors, user data or spot settings.
   */
  datatype Others = Others(tagsValid: bool, settingsValid: bool, standsAlone: bool)

  datatype Spec = Spec(
    launchTemplateID: Option<string>,
    launchTemplateVersion: Option<int>,
    systemDisk: Option<SystemDiskSpec>,
    dataDisks: seq<DataDiskSpec>,
    instanceStorePolicy: Option<string>,
    metadataOptions: Option<MetadataOptions>,
    capacityReservationPreference: Option<string>,
    others: Others)

  datatype NormalizedSystemDisk = NormalizedSystemDisk(
    category: string, size: int, performanceLevel: string, encrypted: Option<bool>, kmsKeyID: string)

  datatype NormalizedDataDisk = NormalizedDataDisk(
    category: string, size: int, device: string, performanceLevel: string,
    encrypted: Option<bool>, kmsKeyID: string, snapshotID: string, deleteWithInstance: Option<bool>)

  datatype NormalizedDisks = NormalizedDisks(
    systemDisk: NormalizedSystemDisk, dataDisks: seq<NormalizedDataDisk>, instanceStorePolicy: Option<string>)

  /** Which part of the spec an error is about. */
  datatype Fault = BadStorePolicy | BadSystemDisk | BadDataDisk(index: nat)

  const ESSD := "cloud_essd"
  const DEFAULT_SIZE := 40
  const DEFAULT_LEVEL := "PL0"

  datatype Constraint = Constraint(minSize: int, maxSize: int, available: bool)

  function ConstraintOf(category: string): Option<Constraint> {
    if category == "cloud_essd" || category == "cloud_essd_entry" || category == "cloud_efficiency" ||
       category == "cloud_pperf" || category == "cloud_sperf" || category == "cloud_ssd" then
      Some(Constraint(20, 32768, true))
    else if category == "cloud_auto" then Some(Constraint(40, 32768, true))
    else if category == "ephemeral_ssd" then Some(Constraint(5, 800, true))
    else if category == "cloud" then Some(Constraint(5, 2000, true))
    else if category == "cloud_essd_xc0" then Some(Constraint(40, 2048, true))
    else if category == "cloud_essd_xc1" then Some(Constraint(0, 0, false))
    else if category == "elastic_ephemeral_disk_premium" || category == "elastic_ephemeral_disk_standard" then
      Some(Constraint(64, 8192, true))
    else None
  }

  predicate IsValidPerformanceLevel(level: string) {
    level == "PL0" || level == "PL1" || level == "PL2" || level == "PL3"
  }

  predicate CategoryAndSizeOk(category: string, size: int) {
    var c := ConstraintOf(category);
    c.Some? && c.value.available && c.value.minSize <= size <= c.value.maxSize
  }

  // ----- what a spec means, and when it means anything

  function EffectiveLevel(category: string, level: Option<string>): string {
    if category == ESSD && level.GetOr("") == "" then DEFAULT_LEVEL else level.GetOr("")
  }

  function IfTrue(flag: Option<bool>): Option<bool> {
    if flag == Some(true) then Some(true) else None
  }

  function IfFalse(flag: Option<bool>): Option<bool> {
    if flag == Some(false) then Some(false) else None
  }

  function EffectiveSystemDisk(d: Option<SystemDiskSpec>): NormalizedSystemDisk {
    match d
    case None => NormalizedSystemDisk(ESSD, DEFAULT_SIZE, DEFAULT_LEVEL, None, "")
    case Some(s) =>
      var category := if s.category == "" then ESSD else s.category;
      NormalizedSystemDisk(category, s.size.GetOr(DEFAULT_SIZE), EffectiveLevel(category, s.performanceLevel),
                           IfTrue(s.encrypted), s.kmsKeyID.GetOr(""))
  }

  function EffectiveDataDisk(d: DataDiskSpec): NormalizedDataDisk {
    NormalizedDataDisk(d.category, d.size, d.device.GetOr(""), EffectiveLevel(d.category, d.performanceLevel),
                       IfTrue(d.encrypted), d.kmsKeyID.GetOr(""), d.snapshotID.GetOr(""), IfFalse(d.deleteWithInstance))
  }

  function EffectiveDataDisks(disks: seq<DataDiskSpec>): seq<NormalizedDataDisk> {
    seq(|disks|, i requires 0 <= i < |disks| => EffectiveDataDisk(disks[i]))
  }

  function Effective(spec: Spec): NormalizedDisks {
    NormalizedDisks(EffectiveSystemDisk(spec.systemDisk),
                    EffectiveDataDisks(spec.dataDisks), spec.instanceStorePolicy)
  }

  /** Only ESSD disks have a level; a key needs encryption. */
  predicate DiskOk(category: string, size: int, level: string, encrypted: Option<bool>, key: string) {
    && CategoryAndSizeOk(category, size)
    && (if category == ESSD then IsValidPerformanceLevel(level) else level == "")
    && (key != "" ==> encrypted == Some(true))
  }

  predicate SystemDiskOk(d: NormalizedSystemDisk) {
    DiskOk(d.category, d.size, d.performanceLevel, d.encrypted, d.kmsKeyID)
  }

  predicate DataDiskOk(d: NormalizedDataDisk) {
    DiskOk(d.category, d.size, d.performanceLevel, d.encrypted, d.kmsKeyID)
  }

  predicate GoodDataDisk(d: DataDiskSpec) {
    DataDiskOk(EffectiveDataDisk(d))
  }

  predicate PolicyOk(policy: Option<string>) {
    policy == None || policy == Some("RAID0")
  }

  predicate WellFormed(spec: Spec) {
    && PolicyOk(spec.instanceStorePolicy)
    && SystemDiskOk(EffectiveSystemDisk(spec.systemDisk))
    && forall i :: 0 <= i < |spec.dataDisks| ==> GoodDataDisk(spec.dataDisks[i])
  }

  /** The first part of a spec that is not well-formed. */
  predicate IsFirstFault(spec: Spec, fault: Fault) {
    match fault
    case BadStorePolicy => !PolicyOk(spec.instanceStorePolicy)
    case BadSystemDisk =>
      PolicyOk(spec.instanceStorePolicy) && !SystemDiskOk(EffectiveSystemDisk(spec.systemDisk))
    case BadDataDisk(i) =>
      && PolicyOk(spec.instanceStorePolicy) && SystemDiskOk(EffectiveSystemDisk(spec.systemDisk))
      && i < |spec.dataDisks| && !GoodDataDisk(spec.dataDisks[i])
      && forall j :: 0 <= j < i ==> GoodDataDisk(spec.dataDisks[j])
  }

  /** On the raw fields: a level needs an ESSD disk, a key needs encryption; an empty field is an unset one. */
  lemma DiskRules(s: SystemDiskSpec, d: DataDiskSpec)
    ensures SystemDiskOk(EffectiveSystemDisk(Some(s))) <==>
            var category := if s.category == "" then "cloud_essd" else s.category;
            && CategoryAndSizeOk(category, if s.size.Some? then s.size.value else 40)
            && (s.performanceLevel.GetOr("") == "" ||
                (category == "cloud_essd" && s.performanceLevel.value in ["PL0", "PL1", "PL2", "PL3"]))
            && (s.kmsKeyID.GetOr("") != "" ==> s.encrypted == Some(true))
    ensures GoodDataDisk(d) <==>
            && CategoryAndSizeOk(d.category, d.size)
            && (d.performanceLevel.GetOr("") == "" ||
                (d.category == "cloud_essd" && d.performanceLevel.value in ["PL0", "PL1", "PL2", "PL3"]))
            && (d.kmsKeyID.GetOr("") != "" ==> d.encrypted == Some(true))
    ensures SystemDiskOk(EffectiveSystemDisk(None))
  {
  }

  // ----- what every accepted disk keeps of its spec

  /** The level sent: the one given; without one, PL0 for ESSD disks and none for others. */
  predicate KeepsLevel(category: string, level: Option<string>, sent: string) {
    if level.Some? && level.value != "" then sent == level.value
    else sent == if category == "cloud_essd" then "PL0" else ""
  }

  /** Encryption is asked for exactly when the spec does, with the same key. */
  predicate KeepsEncryption(
    flag: Option<bool>, key: Option<string>, encrypted: Option<bool>, keySent: string)
  {
    && encrypted == (if flag == Some(true) then Some(true) else None)
    && (match key case None => keySent == "" case Some(k) => keySent == k)
  }

  predicate KeepsSystemDisk(d: Option<SystemDiskSpec>, n: NormalizedSystemDisk) {
    match d
    case None => n == NormalizedSystemDisk("cloud_essd", 40, "PL0", None, "")
    case Some(s) =>
      && n.category == (if s.category == "" then "cloud_essd" else s.category)
      && (if s.size.Some? then n.size == s.size.value else n.size == 40)
      && KeepsLevel(n.category, s.performanceLevel, n.performanceLevel)
      && KeepsEncryption(s.encrypted, s.kmsKeyID, n.encrypted, n.kmsKeyID)
  }

  predicate KeepsDataDisk(d: DataDiskSpec, n: NormalizedDataDisk) {
    && n.category == d.category && n.size == d.size
    && (match d.device case None => n.device == "" case Some(device) => n.device == device)
    && (match d.snapshotID case None => n.snapshotID == "" case Some(id) => n.snapshotID == id)
    && KeepsLevel(d.category, d.performanceLevel, n.performanceLevel)
    && KeepsEncryption(d.encrypted, d.kmsKeyID, n.encrypted, n.kmsKeyID)
    && n.deleteWithInstance == (if d.deleteWithInstance == Some(false) then Some(false) else None)
  }

  predicate KeepsDisks(spec: Spec, n: NormalizedDisks) {
    && KeepsSystemDisk(spec.systemDisk, n.systemDisk)
    && |n.dataDisks| == |spec.dataDisks|
    && (forall i :: 0 <= i < |spec.dataDisks| ==> KeepsDataDisk(spec.dataDisks[i], n.dataDisks[i]))
    && n.instanceStorePolicy == spec.instanceStorePolicy
  }

  /** Field by field, the effective disks are those of the spec with what is missing filled in. */
  lemma EffectiveKeepsDisks(spec: Spec)
    ensures KeepsDisks(spec, Effective(spec))
  {
    var n := Effective(spec);
    forall i | 0 <= i < |spec.dataDisks| ensures KeepsDataDisk(spec.dataDisks[i], n.dataDisks[i]) {
      assert n.dataDisks[i] == EffectiveDataDisk(spec.dataDisks[i]);
    }
  }

  // ----- NormalizeDisks

  method NormalizeDiskPerformance(category: string, level: string) returns (normalized: Option<string>)
    ensures normalized.Some? <==>
            var effective := EffectiveLevel(category, Some(level));
            if category == ESSD then IsValidPerformanceLevel(effective) else effective == ""
    ensures normalized.Some? ==> normalized.value == EffectiveLevel(category, Some(level))
  {
    var performanceLevel := level;
    if category != ESSD {
      if performanceLevel != "" {
        return None;
      }
      return Some(performanceLevel);
    }
    if performanceLevel == "" {
      performanceLevel := DEFAULT_LEVEL;
    }
    if !IsValidPerformanceLevel(performanceLevel) {
      return None;
    }
    return Some(performanceLevel);
  }

  /** The checks common to system and data disks; returns the level to use. */
  method CheckDisk(category: string, size: int, level: string, encrypted: Option<bool>, key: string)
    returns (normalized: Option<string>)
    requires encrypted.Some? ==> encrypted.value
    ensures normalized.Some? <==> DiskOk(category, size, EffectiveLevel(category, Some(level)), encrypted, key)
    ensures normalized.Some? ==> normalized.value == EffectiveLevel(category, Some(level))
  {
    if !CategoryAndSizeOk(category, size) {
      return None;
    }
    normalized := NormalizeDiskPerformance(category, level);
    if normalized.Some? && key != "" && encrypted.None? {
      return None;
    }
  }

  method NormalizeSystemDisk(disk: Option<SystemDiskSpec>) returns (r: Option<NormalizedSystemDisk>)
    ensures r == if SystemDiskOk(EffectiveSystemDisk(disk)) then Some(EffectiveSystemDisk(disk)) else None
  {
    var normalized := NormalizedSystemDisk(ESSD, DEFAULT_SIZE, "", None, "");
    if disk.Some? {
      var d := disk.value;
      if d.category != "" {
        normalized := normalized.(category := d.category);
      }
      if d.size.Some? {
        normalized := normalized.(size := d.size.value);
      }
      if d.performanceLevel.Some? {
        normalized := normalized.(performanceLevel := d.performanceLevel.value);
      }
      normalized := normalized.(encrypted := IfTrue(d.encrypted));
      if d.kmsKeyID.Some? {
        normalized := normalized.(kmsKeyID := d.kmsKeyID.value);
      }
    }
    var level := CheckDisk(normalized.category, normalized.size, normalized.performanceLevel,
                           normalized.encrypted, normalized.kmsKeyID);
    if level.None? {
      return None;
    }
    return Some(normalized.(performanceLevel := level.value));
  }

  method NormalizeDataDisk(disk: DataDiskSpec) returns (r: Option<NormalizedDataDisk>)
    ensures r == if GoodDataDisk(disk) then Some(EffectiveDataDisk(disk)) else None
  {
    var dataDisk := NormalizedDataDisk(disk.category, disk.size, "", "", IfTrue(disk.encrypted), "", "", None);
    if disk.device.Some? {
      dataDisk := dataDisk.(device := disk.device.value);
    }
    if disk.performanceLevel.Some? {
      dataDisk := dataDisk.(performanceLevel := disk.performanceLevel.value);
    }
    if disk.kmsKeyID.Some? {
      dataDisk := dataDisk.(kmsKeyID := disk.kmsKeyID.value);
    }
    if disk.snapshotID.Some? {
      dataDisk := dataDisk.(snapshotID := disk.snapshotID.value);
    }
    if disk.deleteWithInstance.Some? && !disk.deleteWithInstance.value {
      dataDisk := dataDisk.(deleteWithInstance := Some(false));
    }
    var level := CheckDisk(dataDisk.category, dataDisk.size, dataDisk.performanceLevel,
                           dataDisk.encrypted, dataDisk.kmsKeyID);
    if level.None? {
      return None;
    }
    return Some(dataDisk.(performanceLevel := level.value));
  }

  /** The loop over data disks; the error is the index of the first bad one. */
  method NormalizeDataDisks(disks: seq<DataDiskSpec>) returns (r: Result<seq<NormalizedDataDisk>, nat>)
    ensures r.Ok? ==> r.value == EffectiveDataDisks(disks) && forall j :: 0 <= j < |disks| ==> GoodDataDisk(disks[j])
    ensures r.Err? ==> r.error < |disks| && !GoodDataDisk(disks[r.error])
    ensures r.Err? ==> forall j :: 0 <= j < r.error ==> GoodDataDisk(disks[j])
  {
    var normalized: seq<NormalizedDataDisk> := [];
    for i := 0 to |disks|
      invariant |normalized| == i
      invariant forall j :: 0 <= j < i ==> GoodDataDisk(disks[j])
      invariant forall j :: 0 <= j < i ==> normalized[j] == EffectiveDataDisk(disks[j])
    {
      var disk := NormalizeDataDisk(disks[i]);
      if disk.None? {
        return Err(i);
      }
      normalized := normalized + [disk.value];
    }
    return Ok(normalized);
  }

  method NormalizeDisks(spec: Spec) returns (r: Result<NormalizedDisks, Fault>)
    ensures r.Ok? <==> WellFormed(spec)
    ensures r.Ok? ==> r.value == Effective(spec) && KeepsDisks(spec, r.value)
    ensures r.Err? ==> IsFirstFault(spec, r.error)
  {
    EffectiveKeepsDisks(spec);
    if spec.instanceStorePolicy.Some? && spec.instanceStorePolicy.value != "RAID0" {
      return Err(BadStorePolicy);
    }
    var system := NormalizeSystemDisk(spec.systemDisk);
    if system.None? {
      return Err(BadSystemDisk);
    }
    var disks := NormalizeDataDisks(spec.dataDisks);
    if disks.Err? {
      return Err(BadDataDisk(disks.error));
    }
    return Ok(NormalizedDisks(system.value, disks.value, spec.instanceStorePolicy));
  }

  // ----- Default

  function DefaultedSystemDisk(d: Option<SystemDiskSpec>): SystemDiskSpec {
    var n := EffectiveSystemDisk(d);
    var level := if n.performanceLevel != "" then Some(n.performanceLevel) else None;
    match d
    case None => SystemDiskSpec(n.category, Some(n.size), level, None, None)
    case Some(s) =>
      SystemDiskSpec(n.category, Some(n.size), if s.performanceLevel.Some? then s.performanceLevel else level,
                     s.encrypted, s.kmsKeyID)
  }

  function DefaultedMetadata(m: Option<MetadataOptions>): Option<MetadataOptions> {
    match m
    case None => None
    case Some(o) =>
      Some(MetadataOptions(o.httpEndpoint, if o.httpTokens == "" then "optional" else o.httpTokens,
                           Some(o.httpPutResponseHopLimit.GetOr(1))))
  }

  function Defaulted(spec: Spec): Spec {
    spec.(systemDisk := Some(DefaultedSystemDisk(spec.systemDisk)),
          metadataOptions := DefaultedMetadata(spec.metadataOptions),
          capacityReservationPreference := Some(spec.capacityReservationPreference.GetOr("open")))
  }

  class ECSNodeClass {
    var spec: Spec

    constructor (spec: Spec)
      ensures this.spec == spec
    {
      this.spec := spec;
    }

    method Default() returns (err: Option<Fault>)
      modifies this
      ensures err.None? <==> WellFormed(old(spec))
      ensures spec == if err.None? then Defaulted(old(spec)) else old(spec)
    {
      var normalized := NormalizeDisks(spec);
      if normalized.Err? {
        return Some(normalized.error);
      }
      DefaultSystemDisk(normalized.value.systemDisk);
      if spec.metadataOptions.Some? {
        var m := spec.metadataOptions.value;
        if m.httpTokens == "" {
          m := m.(httpTokens := "optional");
        }
        if m.httpPutResponseHopLimit.None? {
          m := m.(httpPutResponseHopLimit := Some(1));
        }
        spec := spec.(metadataOptions := Some(m));
      }
      if spec.capacityReservationPreference.None? {
        spec := spec.(capacityReservationPreference := Some("open"));
      }
      return None;
    }

    method DefaultSystemDisk(normalized: NormalizedSystemDisk)
      requires normalized == EffectiveSystemDisk(spec.systemDisk)
      modifies this
      ensures spec == old(spec).(systemDisk := Some(DefaultedSystemDisk(old(spec).systemDisk)))
    {
      if spec.systemDisk.None? {
        var disk := SystemDiskSpec(normalized.category, Some(normalized.size), None, None, None);
        if normalized.performanceLevel != "" {
          disk := disk.(performanceLevel := Some(normalized.performanceLevel));
        }
        spec := spec.(systemDisk := Some(disk));
      } else {
        var disk := spec.systemDisk.value;
        if disk.size.None? {
          disk := disk.(size := Some(normalized.size));
        }
        if disk.category == "" {
          disk := disk.(category := normalized.category);
        }
        if normalized.performanceLevel != "" && disk.performanceLevel.None? {
          disk := disk.(performanceLevel := Some(normalized.performanceLevel));
        }
        spec := spec.(systemDisk := Some(disk));
      }
    }
  }

  // ----- Validate

  /** ^prefix-[a-z0-9]+$ */
  predicate IsResourceID(id: string, prefix: string) {
    && |id| > |prefix| + 1 && id[..|prefix|] == prefix && id[|prefix|] == '-'
    && forall i :: |prefix| < i < |id| ==> 'a' <= id[i] <= 'z' || '0' <= id[i] <= '9'
  }

  predicate LaunchTemplateValid(s: Spec) {
    && (s.launchTemplateVersion.Some? ==> s.launchTemplateID.Some? && s.launchTemplateVersion.value > 0)
    && (s.launchTemplateID.Some? ==>
          && IsResourceID(s.launchTemplateID.value, "lt")
          && s.others.standsAlone && s.systemDisk.None? && s.dataDisks == [])
  }

  predicate SystemDiskValid(d: Option<SystemDiskSpec>) {
    d.Some? ==>
      && CategoryAndSizeOk(d.value.category, d.value.size.GetOr(DEFAULT_SIZE))
      && (d.value.performanceLevel.Some? ==> IsValidPerformanceLevel(d.value.performanceLevel.value))
  }

  predicate DataDisksValid(disks: seq<DataDiskSpec>) {
    && |disks| <= 16
    && forall i :: 0 <= i < |disks| ==>
         && CategoryAndSizeOk(disks[i].category, disks[i].size)
         && (disks[i].performanceLevel.Some? ==> IsValidPerformanceLevel(disks[i].performanceLevel.value))
  }

  predicate MetadataValid(m: Option<MetadataOptions>) {
    m.Some? ==>
      && m.value.httpTokens in ["optional", "required"]
      && (m.value.httpEndpoint.Some? ==> m.value.httpEndpoint.value in ["enabled", "disabled"])
      && (m.value.httpPutResponseHopLimit.Some? ==> 1 <= m.value.httpPutResponseHopLimit.value <= 64)
  }

  predicate Valid(s: Spec) {
    && s.others.tagsValid
    && LaunchTemplateValid(s)
    && (s.launchTemplateID.Some? ||
        (&& s.others.settingsValid
         && SystemDiskValid(s.systemDisk) && DataDisksValid(s.dataDisks) && WellFormed(s)
         && (s.capacityReservationPreference.Some? ==>
               s.capacityReservationPreference.value in ["open", "target", "none"])
         && MetadataValid(s.metadataOptions)))
  }

  // ----- properties

  /** Defaulting writes out what was implied and changes nothing that affects the launch. */
  lemma DefaultKeepsDisks(s: Spec)
    requires WellFormed(s)
    ensures WellFormed(Defaulted(s)) && Effective(Defaulted(s)) == Effective(s)
  {
    var d := DefaultedSystemDisk(s.systemDisk);
    assert EffectiveSystemDisk(Some(d)) == EffectiveSystemDisk(s.systemDisk);
  }

  lemma DefaultIsIdempotent(s: Spec)
    requires WellFormed(s)
    ensures Defaulted(Defaulted(s)) == Defaulted(s)
  {
    DefaultKeepsDisks(s);
    assert DefaultedSystemDisk(Some(DefaultedSystemDisk(s.systemDisk))) == DefaultedSystemDisk(s.systemDisk);
  }

  /** What is missing becomes a 40 GB ESSD disk of level PL0. */
  predicate SystemDiskFilledIn(before: Option<SystemDiskSpec>, d: SystemDiskSpec) {
    && (before.None? || before.value.category == "" ==> d.category == "cloud_essd")
    && (before.None? || before.value.size.None? ==> d.size == Some(40))
    && (before.None? || before.value.performanceLevel.None? ==>
          d.performanceLevel == if d.category == "cloud_essd" then Some("PL0") else None)
  }

  /** Metadata options are completed, not added. */
  predicate MetadataFilledIn(before: Option<MetadataOptions>, after: Option<MetadataOptions>) {
    if before.None? then after.None?
    else
      && after.Some? && after.value.httpEndpoint == before.value.httpEndpoint
      && (if before.value.httpTokens == "" then after.value.httpTokens == "optional"
          else after.value.httpTokens == before.value.httpTokens)
      && (if before.value.httpPutResponseHopLimit.None? then after.value.httpPutResponseHopLimit == Some(1)
          else after.value.httpPutResponseHopLimit == before.value.httpPutResponseHopLimit)
  }

  /** Nothing the user set is changed, and everything with a default is set. */
  lemma DefaultOnlyFillsIn(s: Spec)
    requires WellFormed(s)
    ensures var t := Defaulted(s);
            var d := t.systemDisk.value;
            && d.category != "" && d.size.Some? && (d.category == ESSD ==> d.performanceLevel.Some?)
            && (s.systemDisk.Some? ==>
                  && (s.systemDisk.value.category != "" ==> d.category == s.systemDisk.value.category)
                  && (s.systemDisk.value.size.Some? ==> d.size == s.systemDisk.value.size)
                  && (s.systemDisk.value.performanceLevel.Some? ==>
                        d.performanceLevel == s.systemDisk.value.performanceLevel)
                  && d.encrypted == s.systemDisk.value.encrypted && d.kmsKeyID == s.systemDisk.value.kmsKeyID)
            && t.dataDisks == s.dataDisks && t.instanceStorePolicy == s.instanceStorePolicy
            && (if s.capacityReservationPreference.Some? then
                  t.capacityReservationPreference == s.capacityReservationPreference
                else t.capacityReservationPreference == Some("open"))
            && t.launchTemplateID == s.launchTemplateID && t.launchTemplateVersion == s.launchTemplateVersion
            && t.others == s.others
    ensures SystemDiskFilledIn(s.systemDisk, Defaulted(s).systemDisk.value)
    ensures MetadataFilledIn(s.metadataOptions, Defaulted(s).metadataOptions)
  {
  }

  /**
   A valid spec that Default accepts stays valid exactly when it names no launch template: with
   one, Default adds the system disk that validation then refuses.
   */
  lemma DefaultKeepsValidity(s: Spec)
    requires Valid(s) && WellFormed(s)
    ensures Valid(Defaulted(s)) <==> s.launchTemplateID.None?
  {
    DefaultKeepsDisks(s);
    if s.launchTemplateID.None? {
      assert SystemDiskValid(Defaulted(s).systemDisk);
    }
  }

  /** Without a launch template Default accepts every valid spec. */
  lemma DefaultAcceptsValid(s: Spec)
    requires Valid(s)
    ensures s.launchTemplateID.None? ==> WellFormed(s) && Valid(Defaulted(s))
  {
    if s.launchTemplateID.None? {
      DefaultKeepsValidity(s);
    }
  }

  /** A normalised result written back as a spec. */
  function AsSpec(n: NormalizedDisks, s: Spec): Spec {
    var d := n.systemDisk;
    s.(systemDisk := Some(SystemDiskSpec(d.category, Some(d.size), Some(d.performanceLevel), d.encrypted,
                                         Some(d.kmsKeyID))),
       dataDisks := seq(|n.dataDisks|, i requires 0 <= i < |n.dataDisks| => AsDataDisk(n.dataDisks[i])),
       instanceStorePolicy := n.instanceStorePolicy)
  }

  function AsDataDisk(d: NormalizedDataDisk): DataDiskSpec {
    DataDiskSpec(d.category, d.size, Some(d.device), Some(d.performanceLevel), d.encrypted, Some(d.kmsKeyID),
                 Some(d.snapshotID), d.deleteWithInstance)
  }

  lemma DataDiskRoundTrip(d: DataDiskSpec)
    requires GoodDataDisk(d)
    ensures EffectiveDataDisk(AsDataDisk(EffectiveDataDisk(d))) == EffectiveDataDisk(d)
  {
  }

  /** Normalisation is a canonical form: normalising its own result changes nothing. */
  lemma NormalizeIsIdempotent(s: Spec)
    requires WellFormed(s)
    ensures WellFormed(AsSpec(Effective(s), s)) && Effective(AsSpec(Effective(s), s)) == Effective(s)
    ensures |Effective(s).dataDisks| == |s.dataDisks|
  {
    var t := AsSpec(Effective(s), s);
    assert EffectiveSystemDisk(t.systemDisk) == EffectiveSystemDisk(s.systemDisk);
    forall i | 0 <= i < |s.dataDisks| ensures EffectiveDataDisk(t.dataDisks[i]) == EffectiveDataDisk(s.dataDisks[i]) {
      DataDiskRoundTrip(s.dataDisks[i]);
    }
  }
}
