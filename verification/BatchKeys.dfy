/**
 pkg/batcher/instance.go, ComputeRunInstancesBatchKey: which requests share a batch. The SHA-256
 digest is a parameter; what is proved is about the byte stream written to it.
 */
module BatchKeys {
  import opened Wrappers
  import opened Ordering
  import opened SecurityGroups

  datatype Tag = Tag(key: string, value: string)

  datatype DataDisk = DataDisk(
    category: string, size: string, device: string, performanceLevel: string,
    encrypted: string, kmsKeyId: string, snapshotId: string, deleteWithInstance: string)

  /** The fields cloneRequest copies; the four of `unkeyed` are not part of the key. */
  datatype Request = Request(
    regionId: string, instanceType: string, imageId: string, vSwitchId: string, securityGroupId: string,
    securityGroupIds: Option<seq<string>>,
    spotStrategy: string, spotPriceLimit: string, ramRoleName: string,
    systemDiskCategory: string, systemDiskSize: string, systemDiskPerformanceLevel: string,
    systemDiskEncrypted: string, systemDiskKmsKeyId: string,
    dataDisk: Option<seq<DataDisk>>,
    userData: string,
    tag: Option<seq<Tag>>,
    unkeyed: Unkeyed)

  datatype Unkeyed = Unkeyed(instanceName: string, clientToken: string, internetMaxBandwidthOut: string)

  function NormalizePerformanceLevel(category: string, level: string): string {
    if category == "cloud_essd" then (if level == "" then "PL0" else level) else ""
  }

  function NormalizeBool(value: string, default: bool): string {
    if value in ["true", "True", "TRUE"] then (if default then "" else "true")
    else if value in ["false", "False", "FALSE"] then (if default then "false" else "")
    else ""
  }

  // ----- the stream

  ghost function Groups(r: Request): seq<string> {
    NormalizedIDs(r.securityGroupIds.GetOr([]))
  }

  function DiskFields(d: DataDisk): (fields: seq<string>)
    ensures |fields| == 8
  {
    [d.category, d.size, d.device, NormalizePerformanceLevel(d.category, d.performanceLevel),
     NormalizeBool(d.encrypted, false), d.kmsKeyId, d.snapshotId, NormalizeBool(d.deleteWithInstance, true)]
  }

  function AllDiskFields(disks: seq<DataDisk>): (fields: seq<string>)
    ensures |fields| == 8 * |disks|
  {
    if disks == [] then [] else AllDiskFields(disks[..|disks| - 1]) + DiskFields(disks[|disks| - 1])
  }

  function TagField(t: Tag): string {
    t.key + "=" + t.value
  }

  function TagFields(tags: seq<Tag>): seq<string> {
    seq(|tags|, i requires 0 <= i < |tags| => TagField(tags[i]))
  }

  function CoreFields(r: Request): seq<string> {
    [r.regionId, r.instanceType, r.imageId, r.vSwitchId, r.securityGroupId]
  }

  function LaunchFields(r: Request): seq<string> {
    [r.spotStrategy, r.spotPriceLimit, r.ramRoleName,
     r.systemDiskCategory, r.systemDiskSize,
     NormalizePerformanceLevel(r.systemDiskCategory, r.systemDiskPerformanceLevel),
     NormalizeBool(r.systemDiskEncrypted, false), r.systemDiskKmsKeyId]
  }

  ghost function Fields(r: Request): seq<string> {
    CoreFields(r) + Groups(r) + LaunchFields(r) + AllDiskFields(r.dataDisk.GetOr([])) + [r.userData] +
    TagFields(r.tag.GetOr([]))
  }

  /** Every field followed by a NUL. */
  function Stream(fields: seq<string>): string {
    if fields == [] then "" else Stream(fields[..|fields| - 1]) + fields[|fields| - 1] + "\0"
  }

  method Write(buffer: string, value: string, ghost fields: seq<string>) returns (r: string)
    requires buffer == Stream(fields)
    ensures r == Stream(fields + [value])
  {
    r := buffer + value;
    r := r + "\0";
    assert (fields + [value])[..|fields|] == fields;
  }

  method WriteAll(buffer: string, values: seq<string>, ghost fields: seq<string>) returns (r: string)
    requires buffer == Stream(fields)
    ensures r == Stream(fields + values)
  {
    r := buffer;
    assert fields + values[..0] == fields;
    for i := 0 to |values|
      invariant r == Stream(fields + values[..i])
    {
      r := Write(r, values[i], fields + values[..i]);
      assert fields + values[..i] + [values[i]] == fields + values[..i + 1];
    }
    assert values[..|values|] == values;
  }

  method WriteDisks(buffer: string, disks: seq<DataDisk>, ghost fields: seq<string>) returns (h: string)
    requires buffer == Stream(fields)
    ensures h == Stream(fields + AllDiskFields(disks))
  {
    h := buffer;
    assert fields + AllDiskFields(disks[..0]) == fields;
    for i := 0 to |disks|
      invariant h == Stream(fields + AllDiskFields(disks[..i]))
    {
      h := WriteAll(h, DiskFields(disks[i]), fields + AllDiskFields(disks[..i]));
      assert disks[..i + 1][..i] == disks[..i];
      assert fields + AllDiskFields(disks[..i]) + DiskFields(disks[i]) == fields + AllDiskFields(disks[..i + 1]);
    }
    assert disks[..|disks|] == disks;
  }

  method WriteGroups(buffer: string, ids: Option<seq<string>>, ghost fields: seq<string>) returns (h: string)
    requires buffer == Stream(fields)
    ensures h == Stream(fields + NormalizedIDs(ids.GetOr([])))
  {
    h := buffer;
    if ids.Some? {
      var groups := NormalizeIDs(ids.value);
      h := WriteAll(h, groups, fields);
    } else {
      assert fields + NormalizedIDs([]) == fields;
    }
  }

  ghost function KeyOf(r: Request, sha256: string -> string): string {
    "run-instances-" + sha256(Stream(Fields(r)))
  }

  method ComputeRunInstancesBatchKey(r: Request, sha256: string -> string) returns (key: string)
    ensures key == KeyOf(r, sha256)
  {
    var h := WriteAll("", CoreFields(r), []);
    ghost var f1 := [] + CoreFields(r);
    h := WriteGroups(h, r.securityGroupIds, f1);
    ghost var f2 := f1 + Groups(r);
    h := WriteAll(h, LaunchFields(r), f2);
    ghost var f3 := f2 + LaunchFields(r);
    h := WriteDisks(h, if r.dataDisk.Some? then r.dataDisk.value else [], f3);
    ghost var f4 := f3 + AllDiskFields(r.dataDisk.GetOr([]));
    h := Write(h, r.userData, f4);
    h := WriteAll(h, TagFields(if r.tag.Some? then r.tag.value else []), f4 + [r.userData]);
    assert f4 + [r.userData] + TagFields(r.tag.GetOr([])) == Fields(r) by {
      assert f1 == CoreFields(r);
    }
    key := "run-instances-" + sha256(h);
  }

  // ----- decoding the stream

  predicate NulFree(fields: seq<string>) {
    forall i :: 0 <= i < |fields| ==> '\0' !in fields[i]
  }

  /** The stream is uniquely decodable: NUL-free fields can be read back from it. */
  lemma {:induction false} StreamDecodes(f: seq<string>, g: seq<string>)
    requires NulFree(f) && NulFree(g)
    requires Stream(f) == Stream(g)
    ensures f == g
    decreases |f|
  {
    if f != [] && g != [] {
      var m, n := |f| - 1, |g| - 1;
      LastFieldDecodes(Stream(f[..m]), f[m], Stream(g[..n]), g[n], f[..m], g[..n]);
      StreamDecodes(f[..m], g[..n]);
      assert f == f[..m] + [f[m]] && g == g[..n] + [g[n]];
    }
  }

  lemma StreamEndsWithNul(f: seq<string>)
    ensures Stream(f) != "" ==> f != [] && Stream(f)[|Stream(f)| - 1] == '\0'
    ensures Stream(f) == "" ==> f == []
  {
  }

  lemma LastFieldDecodes(p: string, a: string, q: string, b: string, f: seq<string>, g: seq<string>)
    requires '\0' !in a && '\0' !in b
    requires p == Stream(f) && q == Stream(g)
    requires p + a + "\0" == q + b + "\0"
    ensures p == q && a == b
  {
    StreamEndsWithNul(f);
    StreamEndsWithNul(g);
    var t := p + a;
    assert t == (p + a + "\0")[..|p| + |a|];
    assert t == (q + b + "\0")[..|q| + |b|] == q + b;
    LastNulMarksBoundary(p, a, q, b);
    LastNulMarksBoundary(q, b, p, a);
    assert p == t[..|p|] && q == t[..|q|];
    assert a == t[|p|..] && b == t[|q|..];
  }

  lemma LastNulMarksBoundary(p: string, a: string, q: string, b: string)
    requires p + a == q + b && '\0' !in b
    requires p != "" ==> p[|p| - 1] == '\0'
    ensures |p| <= |q|
  {
    var t := p + a;
    assert forall k :: |q| <= k < |t| ==> t[k] == b[k - |q|];
    assert p != "" ==> t[|p| - 1] == '\0';
  }

  // ----- what equal keys mean

  /** What a boolean parameter means, on the assumption that ECS knows the spellings the normaliser knows. */
  function Meaning(value: string, default: bool): bool {
    if value in ["true", "True", "TRUE"] then true
    else if value in ["false", "False", "FALSE"] then false
    else default
  }

  lemma NormalizeBoolDecidesMeaning(v: string, w: string, default: bool)
    ensures NormalizeBool(v, default) == NormalizeBool(w, default) <==> Meaning(v, default) == Meaning(w, default)
  {
  }

  /** An unspecified performance level of an ESSD disk means PL0; other disks have none. */
  predicate SameLevel(category: string, v: string, w: string) {
    category == "cloud_essd" ==> v == w || {v, w} == {"", "PL0"}
  }

  predicate SameDisk(d: DataDisk, e: DataDisk) {
    && d.category == e.category && d.size == e.size && d.device == e.device
    && SameLevel(d.category, d.performanceLevel, e.performanceLevel)
    && Meaning(d.encrypted, false) == Meaning(e.encrypted, false)
    && d.kmsKeyId == e.kmsKeyId && d.snapshotId == e.snapshotId
    && Meaning(d.deleteWithInstance, true) == Meaning(e.deleteWithInstance, true)
  }

  predicate SameCore(a: Request, b: Request) {
    && a.regionId == b.regionId && a.instanceType == b.instanceType && a.imageId == b.imageId
    && a.vSwitchId == b.vSwitchId && a.securityGroupId == b.securityGroupId
    && Elements(a.securityGroupIds.GetOr([])) == Elements(b.securityGroupIds.GetOr([]))
  }

  predicate SameLaunch(a: Request, b: Request) {
    && a.spotStrategy == b.spotStrategy && a.spotPriceLimit == b.spotPriceLimit && a.ramRoleName == b.ramRoleName
    && a.systemDiskCategory == b.systemDiskCategory && a.systemDiskSize == b.systemDiskSize
    && SameLevel(a.systemDiskCategory, a.systemDiskPerformanceLevel, b.systemDiskPerformanceLevel)
    && Meaning(a.systemDiskEncrypted, false) == Meaning(b.systemDiskEncrypted, false)
    && a.systemDiskKmsKeyId == b.systemDiskKmsKeyId
    && a.userData == b.userData
  }

  predicate SameDisks(ds: seq<DataDisk>, es: seq<DataDisk>) {
    |ds| == |es| && forall i :: 0 <= i < |ds| ==> SameDisk(ds[i], es[i])
  }

  /** Launching from either request gives the same instance, as far as the keyed fields go. */
  predicate SameConfiguration(a: Request, b: Request) {
    && SameCore(a, b) && SameLaunch(a, b)
    && SameDisks(a.dataDisk.GetOr([]), b.dataDisk.GetOr([]))
    && a.tag.GetOr([]) == b.tag.GetOr([])
  }

  predicate SameCounts(a: Request, b: Request) {
    && |Elements(a.securityGroupIds.GetOr([]))| == |Elements(b.securityGroupIds.GetOr([]))|
    && |a.dataDisk.GetOr([])| == |b.dataDisk.GetOr([])|
    && |a.tag.GetOr([])| == |b.tag.GetOr([])|
  }

  lemma DiskFieldsDecide(d: DataDisk, e: DataDisk)
    ensures DiskFields(d) == DiskFields(e) <==> SameDisk(d, e)
  {
    var f, g := DiskFields(d), DiskFields(e);
    NormalizeBoolDecidesMeaning(d.encrypted, e.encrypted, false);
    NormalizeBoolDecidesMeaning(d.deleteWithInstance, e.deleteWithInstance, true);
    LevelDecides(d.category, d.performanceLevel, e.performanceLevel);
    if f == g {
      assert forall i :: 0 <= i < 8 ==> f[i] == g[i];
      assert f[0] == g[0] && f[1] == g[1] && f[2] == g[2] && f[3] == g[3];
      assert f[4] == g[4] && f[5] == g[5] && f[6] == g[6] && f[7] == g[7];
    }
  }

  lemma LevelDecides(category: string, v: string, w: string)
    ensures NormalizePerformanceLevel(category, v) == NormalizePerformanceLevel(category, w) <==>
            SameLevel(category, v, w)
  {
    if v == w {
    } else if category == "cloud_essd" && {v, w} == {"", "PL0"} {
      assert v in {"", "PL0"} && w in {"", "PL0"};
    } else if {v, w} != {"", "PL0"} {
      assert !(v == "" && w == "PL0");
      assert !(v == "PL0" && w == "");
    }
  }

  lemma LaunchFieldsDecide(a: Request, b: Request)
    ensures LaunchFields(a) == LaunchFields(b) && a.userData == b.userData <==> SameLaunch(a, b)
  {
    var f, g := LaunchFields(a), LaunchFields(b);
    NormalizeBoolDecidesMeaning(a.systemDiskEncrypted, b.systemDiskEncrypted, false);
    LevelDecides(a.systemDiskCategory, a.systemDiskPerformanceLevel, b.systemDiskPerformanceLevel);
    if f == g {
      assert f[0] == g[0] && f[1] == g[1] && f[2] == g[2] && f[3] == g[3];
      assert f[4] == g[4] && f[5] == g[5] && f[6] == g[6] && f[7] == g[7];
    }
  }

  lemma CoreFieldsDecide(a: Request, b: Request)
    ensures CoreFields(a) == CoreFields(b) && Groups(a) == Groups(b) <==> SameCore(a, b)
  {
    var f, g := CoreFields(a), CoreFields(b);
    NormalFormDecidesSetEquality(a.securityGroupIds.GetOr([]), b.securityGroupIds.GetOr([]));
    if f == g {
      assert f[0] == g[0] && f[1] == g[1] && f[2] == g[2] && f[3] == g[3] && f[4] == g[4];
    }
  }

  lemma {:induction false} AllDiskFieldsDecide(ds: seq<DataDisk>, es: seq<DataDisk>)
    requires |ds| == |es|
    ensures AllDiskFields(ds) == AllDiskFields(es) <==> SameDisks(ds, es)
    decreases |ds|
  {
    if ds != [] {
      var n := |ds| - 1;
      AllDiskFieldsDecide(ds[..n], es[..n]);
      DiskFieldsDecide(ds[n], es[n]);
      SplitsAt(AllDiskFields(ds[..n]), DiskFields(ds[n]), AllDiskFields(es[..n]), DiskFields(es[n]));
      assert SameDisks(ds, es) <==> SameDisks(ds[..n], es[..n]) && SameDisk(ds[n], es[n]);
    }
  }

  lemma SplitsAt(a: seq<string>, b: seq<string>, c: seq<string>, d: seq<string>)
    requires |a| == |c|
    ensures a + b == c + d <==> a == c && b == d
  {
    if a + b == c + d {
      assert a == (a + b)[..|a|] && c == (c + d)[..|a|];
      assert b == (a + b)[|a|..] && d == (c + d)[|a|..];
    }
  }

  lemma FieldsSplit(a: Request, b: Request)
    requires SameCounts(a, b)
    ensures Fields(a) == Fields(b) <==>
            && CoreFields(a) == CoreFields(b) && Groups(a) == Groups(b) && LaunchFields(a) == LaunchFields(b)
            && AllDiskFields(a.dataDisk.GetOr([])) == AllDiskFields(b.dataDisk.GetOr([]))
            && a.userData == b.userData && TagFields(a.tag.GetOr([])) == TagFields(b.tag.GetOr([]))
  {
    var a1, b1 := CoreFields(a), CoreFields(b);
    var a2, b2 := a1 + Groups(a), b1 + Groups(b);
    var a3, b3 := a2 + LaunchFields(a), b2 + LaunchFields(b);
    var a4, b4 := a3 + AllDiskFields(a.dataDisk.GetOr([])), b3 + AllDiskFields(b.dataDisk.GetOr([]));
    var a5, b5 := a4 + [a.userData], b4 + [b.userData];
    SplitsAt(a5, TagFields(a.tag.GetOr([])), b5, TagFields(b.tag.GetOr([])));
    SplitsAt(a4, [a.userData], b4, [b.userData]);
    SplitsAt(a3, AllDiskFields(a.dataDisk.GetOr([])), b3, AllDiskFields(b.dataDisk.GetOr([])));
    SplitsAt(a2, LaunchFields(a), b2, LaunchFields(b));
    SplitsAt(a1, Groups(a), b1, Groups(b));
    assert [a.userData] == [b.userData] <==> a.userData == b.userData by {
      assert [a.userData][0] == a.userData && [b.userData][0] == b.userData;
    }
  }

  // ----- tags

  predicate HasEquals(s: string) {
    '=' in s
  }

  /** No tag key has an equals sign. */
  predicate PlainKeys(tags: seq<Tag>) {
    forall i :: 0 <= i < |tags| ==> !HasEquals(tags[i].key)
  }

  /** No tag has one anywhere. */
  predicate PlainTags(tags: seq<Tag>) {
    forall i :: 0 <= i < |tags| ==> !HasEquals(tags[i].key) && !HasEquals(tags[i].value)
  }

  lemma PlainKeysDecode(t: Tag, u: Tag)
    requires !HasEquals(t.key) && !HasEquals(u.key) && TagField(t) == TagField(u)
    ensures t == u
  {
    assert TagField(t)[|t.key|] == '=' && TagField(u)[|u.key|] == '=';
    assert forall i :: 0 <= i < |u.key| ==> TagField(u)[i] == u.key[i];
    assert forall i :: 0 <= i < |t.key| ==> TagField(t)[i] == t.key[i];
    assert t.key == TagField(t)[..|t.key|] && u.key == TagField(u)[..|u.key|];
    assert t.value == TagField(t)[|t.key| + 1..] && u.value == TagField(u)[|u.key| + 1..];
  }

  /** A tag that is read back differently from the field of a tag with an equals sign in it. */
  lemma Lookalike(t: Tag) returns (u: Tag)
    requires HasEquals(t.key) || HasEquals(t.value)
    ensures u != t && TagField(u) == TagField(t)
  {
    if i: nat :| i < |t.key| && t.key[i] == '=' {
      u := Tag(t.key[..i], t.key[i + 1..] + "=" + t.value);
      assert t.key == t.key[..i] + "=" + t.key[i + 1..];
      assert |u.key| < |t.key|;
    } else {
      var i: nat :| i < |t.value| && t.value[i] == '=';
      u := Tag(t.key + "=" + t.value[..i], t.value[i + 1..]);
      assert t.value == t.value[..i] + "=" + t.value[i + 1..];
      assert |u.key| > |t.key|;
    }
  }

  /** A tag is the only one with its field exactly when it has no equals sign. */
  lemma FieldDecidesTag(t: Tag)
    ensures (forall u :: TagField(u) == TagField(t) ==> u == t) <==> !HasEquals(t.key) && !HasEquals(t.value)
  {
    if HasEquals(t.key) || HasEquals(t.value) {
      var u := Lookalike(t);
    } else {
      forall u | TagField(u) == TagField(t) ensures u == t {
        PlainFieldDecodes(t, u);
      }
    }
  }

  lemma PlainFieldDecodes(t: Tag, u: Tag)
    requires !HasEquals(t.key) && !HasEquals(t.value) && TagField(u) == TagField(t)
    ensures u == t
  {
    assert forall i :: 0 <= i < |TagField(t)| && TagField(t)[i] == '=' ==> i == |t.key|;
    assert TagField(u)[|u.key|] == '=';
    assert forall i :: 0 <= i < |u.key| ==> TagField(u)[i] == u.key[i];
    PlainKeysDecode(t, u);
  }

  lemma TagFieldsDecide(ts: seq<Tag>, us: seq<Tag>)
    requires (PlainKeys(ts) && PlainKeys(us)) || PlainTags(ts)
    ensures TagFields(ts) == TagFields(us) <==> ts == us
  {
    if TagFields(ts) == TagFields(us) {
      assert |ts| == |TagFields(ts)| == |us|;
      forall i | 0 <= i < |ts| ensures ts[i] == us[i] {
        assert TagFields(ts)[i] == TagField(ts[i]) && TagFields(us)[i] == TagField(us[i]);
        if PlainTags(ts) {
          PlainFieldDecodes(ts[i], us[i]);
        } else {
          PlainKeysDecode(ts[i], us[i]);
        }
      }
    }
  }

  // ----- the theorems

  predicate SameButTags(a: Request, b: Request) {
    SameCore(a, b) && SameLaunch(a, b) && SameDisks(a.dataDisk.GetOr([]), b.dataDisk.GetOr([]))
  }

  lemma FieldsDecide(a: Request, b: Request)
    requires SameCounts(a, b)
    ensures Fields(a) == Fields(b) <==>
            SameButTags(a, b) && TagFields(a.tag.GetOr([])) == TagFields(b.tag.GetOr([]))
  {
    FieldsSplit(a, b);
    CoreFieldsDecide(a, b);
    LaunchFieldsDecide(a, b);
    AllDiskFieldsDecide(a.dataDisk.GetOr([]), b.dataDisk.GetOr([]));
  }

  /**
   Requests with the same configuration always have equal streams, so neither the order nor the
   repetition of security groups, nor the spelling of booleans, nor leaving PL0 implicit splits a
   batch. Conversely, for NUL-free fields and tag keys without an equals sign, requests with
   equal streams have the same configuration exactly when they have equally many security
   groups, data disks and tags.
   */
  lemma EqualStreamsMeanSameConfiguration(a: Request, b: Request)
    requires NulFree(Fields(a)) && NulFree(Fields(b))
    ensures SameConfiguration(a, b) ==> Stream(Fields(a)) == Stream(Fields(b))
    ensures Stream(Fields(a)) == Stream(Fields(b)) && PlainKeys(a.tag.GetOr([])) && PlainKeys(b.tag.GetOr([])) ==>
              (SameConfiguration(a, b) <==> SameCounts(a, b))
  {
    if SameCounts(a, b) {
      FieldsDecide(a, b);
      if Stream(Fields(a)) == Stream(Fields(b)) {
        StreamDecodes(Fields(a), Fields(b));
        if PlainKeys(a.tag.GetOr([])) && PlainKeys(b.tag.GetOr([])) {
          TagFieldsDecide(a.tag.GetOr([]), b.tag.GetOr([]));
        }
      }
    }
  }

  /** What a request may share a batch with, given equal counts and no collision of the digest. */
  ghost predicate Batched(a: Request, b: Request) {
    NulFree(Fields(b)) && SameCounts(a, b) && Stream(Fields(a)) == Stream(Fields(b))
  }

  /**
   A request is batched only with requests of its own configuration, whatever requests there
   are, exactly when none of its tags has an equals sign.
   */
  lemma OnlyPlainTagsKeepApart(a: Request)
    requires NulFree(Fields(a))
    ensures (forall b :: Batched(a, b) ==> SameConfiguration(a, b)) <==> PlainTags(a.tag.GetOr([]))
  {
    var tags := a.tag.GetOr([]);
    if PlainTags(tags) {
      forall b | Batched(a, b) ensures SameConfiguration(a, b) {
        StreamDecodes(Fields(a), Fields(b));
        FieldsDecide(a, b);
        TagFieldsDecide(tags, b.tag.GetOr([]));
      }
    } else {
      var i :| 0 <= i < |tags| && (HasEquals(tags[i].key) || HasEquals(tags[i].value));
      var u := Lookalike(tags[i]);
      var b := a.(tag := Some(tags[i := u]));
      assert TagFields(tags[i := u]) == TagFields(tags);
      assert Fields(b) == Fields(a);
      assert Batched(a, b) && !SameConfiguration(a, b);
    }
  }

  predicate SameFields(tags: seq<Tag>) {
    forall i, j :: 0 <= i < j < |tags| ==> TagField(tags[i]) == TagField(tags[j])
  }

  function WithTags(r: Request, tags: seq<Tag>): Request {
    r.(tag := Some(tags))
  }

  ghost predicate Reordering(us: seq<Tag>, tags: seq<Tag>) {
    multiset(us) == multiset(tags)
  }

  /** A request with other tags has the stream of the original exactly when they have its tags' fields. */
  lemma {:induction false} TagsDecideStream(r: Request, us: seq<Tag>)
    requires NulFree(Fields(r)) && NulFree(Fields(WithTags(r, us))) && |us| == |r.tag.GetOr([])|
    ensures Stream(Fields(WithTags(r, us))) == Stream(Fields(r)) <==> TagFields(us) == TagFields(r.tag.GetOr([]))
  {
    FieldsSplit(WithTags(r, us), r);
    if Stream(Fields(WithTags(r, us))) == Stream(Fields(r)) {
      StreamDecodes(Fields(WithTags(r, us)), Fields(r));
    }
  }

  lemma {:induction false} TagsAreFields(r: Request, i: nat)
    requires i < |r.tag.GetOr([])| && NulFree(Fields(r))
    ensures '\0' !in TagField(r.tag.GetOr([])[i])
  {
    var tags := r.tag.GetOr([]);
    var n := |Fields(r)| - |tags|;
    assert Fields(r)[n + i] == TagFields(tags)[i];
  }

  lemma {:induction false} ReorderedIsNulFree(r: Request, us: seq<Tag>)
    requires NulFree(Fields(r)) && Reordering(us, r.tag.GetOr([]))
    ensures NulFree(Fields(WithTags(r, us))) && |us| == |r.tag.GetOr([])|
  {
    var tags := r.tag.GetOr([]);
    PermutationKeepsElements(us, tags);
    var n := |Fields(r)| - |tags|;
    var f, g := Fields(r), Fields(WithTags(r, us));
    assert f[..n] == g[..n];
    forall i | 0 <= i < |g| ensures '\0' !in g[i] {
      if i < n {
        assert g[i] == f[..n][i];
      } else {
        assert us[i - n] in tags;
        var j :| 0 <= j < |tags| && tags[j] == us[i - n];
        TagsAreFields(r, j);
        assert g[i] == TagFields(us)[i - n];
      }
    }
  }

  lemma {:induction false} SwapReorders(tags: seq<Tag>, i: nat, j: nat)
    requires i < j < |tags|
    ensures Reordering(tags[i := tags[j]][j := tags[i]], tags)
  {
  }

  /** The tags are hashed in their order: no reordering changes the stream exactly when all have one field. */
  lemma {:induction false} TagOrderMatters(r: Request)
    requires NulFree(Fields(r))
    ensures (forall us :: Reordering(us, r.tag.GetOr([])) ==> Stream(Fields(WithTags(r, us))) == Stream(Fields(r)))
            <==> SameFields(r.tag.GetOr([]))
  {
    hide Fields, Stream;
    var tags := r.tag.GetOr([]);
    if SameFields(tags) {
      forall us | Reordering(us, tags) ensures Stream(Fields(WithTags(r, us))) == Stream(Fields(r)) {
        ReorderedIsNulFree(r, us);
        PermutationKeepsElements(us, tags);
        forall i | 0 <= i < |us| ensures TagField(us[i]) == TagField(tags[i]) {
          assert us[i] in tags;
        }
        TagsDecideStream(r, us);
      }
    } else {
      var i, j :| 0 <= i < j < |tags| && TagField(tags[i]) != TagField(tags[j]);
      var us := tags[i := tags[j]][j := tags[i]];
      SwapReorders(tags, i, j);
      ReorderedIsNulFree(r, us);
      TagsDecideStream(r, us);
      assert TagFields(us)[i] != TagFields(tags)[i];
      assert Reordering(us, tags);
    }
  }

  const BLANK := Request("", "", "", "", "", None, "", "", "", "", "", "", "", "", None, "", None, Unkeyed("", "", ""))

  /**
   The counts are needed: an empty group ID with user data "=" and no group with an empty tag
   give one stream, hence one key, to two different configurations.
   */
  lemma DifferentCountsCollide()
    ensures var a := BLANK.(securityGroupIds := Some([""]), userData := "=");
            var b := BLANK.(tag := Some([Tag("", "")]));
            Stream(Fields(a)) == Stream(Fields(b)) && !SameConfiguration(a, b)
  {
    var a := BLANK.(securityGroupIds := Some([""]), userData := "=");
    var b := BLANK.(tag := Some([Tag("", "")]));
    StrictlySortedUnique([""], Groups(a));
    StrictlySortedUnique([], Groups(b));
    var e := "";
    assert "" + "=" + "" == "=";
    assert TagFields([Tag("", "")]) == ["="];
    assert Fields(a) == [e, e, e, e, e] + [e] + [e, e, e, e, e, e, e, e] + ["="];
    assert Fields(b) == [e, e, e, e, e] + [e, e, e, e, e, e, e, e] + [e] + ["="];
    assert Fields(a) == Fields(b);
  }

  /** Equal counts do not help: these two requests have one tag each, one stream, and different tags. */
  lemma DifferentTagsCollide()
    ensures var a := BLANK.(tag := Some([Tag("a=b", "c")]));
            var b := BLANK.(tag := Some([Tag("a", "b=c")]));
            && SameCounts(a, b) && NulFree(Fields(a)) && Stream(Fields(a)) == Stream(Fields(b))
            && !SameConfiguration(a, b)
  {
    var s, t := Tag("a=b", "c"), Tag("a", "b=c");
    var a, b := BLANK.(tag := Some([s])), BLANK.(tag := Some([t]));
    assert TagField(s) == "a=b=c" == TagField(t);
    assert TagFields([s]) == ["a=b=c"] == TagFields([t]);
    assert s.value != t.value;
    StrictlySortedUnique([], Groups(a));
    var e := "";
    assert Fields(a) == [e, e, e, e, e] + [e, e, e, e, e, e, e, e] + [e] + ["a=b=c"];
  }
}
