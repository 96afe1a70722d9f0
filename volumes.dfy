/** The volume and mount composer: claim mounts for the persisted
    directories, tmpfs scratch space, the secret, volume projections, systemd
    host paths, raw block devices and the claim templates behind them. */
module Volumes {
  import opened Wrappers
  import opened Strings
  import opened Paths
  import opened ClusterTypes
  import opened KubeTypes

  // ---------------------------------------------------------------------
  // Claim mounts

  /** ms mounts the role's claim once per directory of dirs, in order: each
      mount uses the claim's name, is writable, sits at the directory, and
      takes from the claim the sub-path that is the directory without its
      leading '/' (so "/" + subPath is the mount path). */
  predicate IsClaimMountsFor(ms: seq<VolumeMount>, pvcNamePrefix: string, dirs: seq<Path>) {
    && |ms| == |dirs|
    && forall i :: 0 <= i < |ms| ==>
      && ms[i].name == pvcNamePrefix
      && ms[i].mountPath == Render(dirs[i])
      && !ms[i].readOnly
      && "/" + ms[i].subPath == ms[i].mountPath
  }

  /** The claim mounts for dirs, one per directory, in order. */
  function ClaimMounts(pvcNamePrefix: string, dirs: seq<Path>): (ms: seq<VolumeMount>)
    ensures IsClaimMountsFor(ms, pvcNamePrefix, dirs)
  {
    seq(|dirs|, i requires 0 <= i < |dirs| => VolumeMount(pvcNamePrefix, Render(dirs[i]), false, Render(dirs[i])[1..]))
  }

  /** generateClaimMounts. */
  method GenerateClaimMounts(pvcNamePrefix: string, persistDirs: seq<Path>) returns (volumeMounts: seq<VolumeMount>)
    ensures volumeMounts == ClaimMounts(pvcNamePrefix, persistDirs)
  {
    volumeMounts := [];
    for i := 0 to |persistDirs|
      invariant volumeMounts == ClaimMounts(pvcNamePrefix, persistDirs[..i])
    {
      var folder := Render(persistDirs[i]);
      var volumeMount := VolumeMount(pvcNamePrefix, folder, false, folder[1..]);
      volumeMounts := volumeMounts + [volumeMount];
    }
    assert persistDirs[..|persistDirs|] == persistDirs;
  }

  /** Distinct clean directories get distinct sub-paths of the one claim, so
      the directories sharing it never share storage. */
  lemma ClaimSubPathsDistinct(ms: seq<VolumeMount>, pvcNamePrefix: string, dirs: seq<Path>)
    requires IsClaimMountsFor(ms, pvcNamePrefix, dirs)
    requires forall i :: 0 <= i < |dirs| ==> IsClean(dirs[i])
    requires forall i, j :: 0 <= i < j < |dirs| ==> dirs[i] != dirs[j]
    ensures forall i, j :: 0 <= i < j < |ms| ==> ms[i].subPath != ms[j].subPath && ms[i].mountPath != ms[j].mountPath
  {
    forall i, j | 0 <= i < j < |ms| ensures ms[i].subPath != ms[j].subPath && ms[i].mountPath != ms[j].mountPath {
      if ms[i].subPath == ms[j].subPath || ms[i].mountPath == ms[j].mountPath {
        RenderInjective(dirs[i], dirs[j]);
      }
    }
  }

  // ---------------------------------------------------------------------
  // Mount/volume pairs

  /** Mounts together with the pod volumes they use. */
  datatype MountSet = MountSet(mounts: seq<VolumeMount>, volumes: seq<Volume>)

  /** The i-th mount uses the i-th volume. */
  predicate Paired(s: MountSet) {
    |s.mounts| == |s.volumes| && forall i :: 0 <= i < |s.mounts| ==> s.mounts[i].name == s.volumes[i].name
  }

  function Concat(a: MountSet, b: MountSet): (r: MountSet)
    ensures Paired(a) && Paired(b) ==> Paired(r)
  {
    MountSet(a.mounts + b.mounts, a.volumes + b.volumes)
  }

  const NoMounts := MountSet([], [])

  lemma ConcatAssociative(a: MountSet, b: MountSet, c: MountSet)
    ensures Concat(Concat(a, b), c) == Concat(a, Concat(b, c))
  {
    assert (a.mounts + b.mounts) + c.mounts == a.mounts + (b.mounts + c.mounts);
    assert (a.volumes + b.volumes) + c.volumes == a.volumes + (b.volumes + c.volumes);
  }

  /** generateTmpfsSupport: three memory-backed volumes of the fixed size,
      mounted writable at /tmp, /run and /run/lock. */
  function TmpfsSupport(tmpFSVolSize: string): (s: MountSet)
    ensures Paired(s) && |s.volumes| == 3
    ensures s.mounts[0].mountPath == "/tmp" && s.mounts[1].mountPath == "/run" && s.mounts[2].mountPath == "/run/lock"
    ensures forall i :: 0 <= i < 3 ==> !s.mounts[i].readOnly && s.mounts[i].subPath == ""
    ensures forall i :: 0 <= i < 3 ==> s.volumes[i].source == EmptyDir("Memory", tmpFSVolSize)
  {
    MountSet(
      [VolumeMount("tmpfs-tmp", "/tmp", false, ""),
       VolumeMount("tmpfs-run", "/run", false, ""),
       VolumeMount("tmpfs-run-lock", "/run/lock", false, "")],
      [Volume("tmpfs-tmp", EmptyDir("Memory", tmpFSVolSize)),
       Volume("tmpfs-run", EmptyDir("Memory", tmpFSVolSize)),
       Volume("tmpfs-run-lock", EmptyDir("Memory", tmpFSVolSize))])
  }

  /** generateSecretVolume: nothing without a secret; with one, one volume
      named after the secret holding it, mounted as the secret asks. */
  function SecretVolume(secret: Option<KDSecret>): (s: MountSet)
    ensures Paired(s)
    ensures secret.None? ==> s == NoMounts
    ensures secret.Some? ==>
      && |s.volumes| == 1
      && s.mounts[0] == VolumeMount("secret-vol-" + secret.value.name, secret.value.mountPath, secret.value.readOnly, "")
      && s.volumes[0].source == SecretSource(secret.value.name, secret.value.defaultMode)
  {
    if secret.None? then NoMounts
    else
      var secretVolName := "secret-vol-" + secret.value.name;
      MountSet(
        [VolumeMount(secretVolName, secret.value.mountPath, secret.value.readOnly, "")],
        [Volume(secretVolName, SecretSource(secret.value.name, secret.value.defaultMode))])
  }

  /** generateVolumeProjectionMounts: the existing claim as volume
      "projected-vol-<index>", mounted where the projection asks. */
  function VolumeProjectionMount(volIndex: nat, projectedVol: VolumeProjection): (s: MountSet)
    ensures Paired(s) && |s.volumes| == 1
    ensures s.mounts[0] == VolumeMount("projected-vol-" + Decimal(volIndex), projectedVol.mountPath, projectedVol.readOnly, "")
    ensures s.volumes[0].source == ClaimSource(projectedVol.pvcName, projectedVol.readOnly)
  {
    var volName := "projected-vol-" + Decimal(volIndex);
    MountSet(
      [VolumeMount(volName, projectedVol.mountPath, projectedVol.readOnly, "")],
      [Volume(volName, ClaimSource(projectedVol.pvcName, projectedVol.readOnly))])
  }

  /** generateSystemdSupport: the host's cgroup tree read-only and its systemd
      directory writable, each mounted at the same path it has on the host. */
  function SystemdSupport(cgroupFSVolume: string, systemdFSVolume: string): (s: MountSet)
    ensures Paired(s) && |s.volumes| == 2
    ensures s.mounts[0].mountPath == cgroupFSVolume && s.mounts[0].readOnly
    ensures s.volumes[0].source == HostPath(cgroupFSVolume)
    ensures s.mounts[1].mountPath == systemdFSVolume && !s.mounts[1].readOnly
    ensures s.volumes[1].source == HostPath(systemdFSVolume)
  {
    MountSet(
      [VolumeMount("cgroupfs", cgroupFSVolume, true, ""),
       VolumeMount("systemd", systemdFSVolume, false, "")],
      [Volume("cgroupfs", HostPath(cgroupFSVolume)),
       Volume("systemd", HostPath(systemdFSVolume))])
  }

  /** The projections of projs[..k], each under its index. */
  function ProjectionMounts(projs: seq<VolumeProjection>, k: nat): (s: MountSet)
    requires k <= |projs|
    ensures Paired(s) && |s.volumes| == k
    ensures forall i :: 0 <= i < k ==> s.volumes[i].name == "projected-vol-" + Decimal(i)
    ensures forall i :: 0 <= i < k ==> s.volumes[i].source == ClaimSource(projs[i].pvcName, projs[i].readOnly)
    decreases k
  {
    if k == 0 then NoMounts
    else Concat(ProjectionMounts(projs, k - 1), VolumeProjectionMount(k - 1, projs[k - 1]))
  }

  /** Everything generateVolumeMounts produces after the claim mounts: tmpfs,
      then the secret, then the projections, then (when asked) systemd. */
  function NonClaimMounts(c: Consts, role: Role, withSystemd: bool): (s: MountSet)
    ensures Paired(s)
    ensures |s.volumes| == 3 + (if role.secret.Some? then 1 else 0) + |role.volumeProjections| + (if withSystemd then 2 else 0)
  {
    Concat(
      Concat(
        Concat(TmpfsSupport(c.tmpFSVolSize), SecretVolume(role.secret)),
        ProjectionMounts(role.volumeProjections, |role.volumeProjections|)),
      if withSystemd then SystemdSupport(c.cgroupFSVolume, c.systemdFSVolume) else NoMounts)
  }

  /** acc followed by the projections of projs[..k], appended one at a time
      as the composing loop does. */
  function ProjectionsAfter(acc: MountSet, projs: seq<VolumeProjection>, k: nat): MountSet
    requires k <= |projs|
    decreases k
  {
    if k == 0 then acc
    else Concat(ProjectionsAfter(acc, projs, k - 1), VolumeProjectionMount(k - 1, projs[k - 1]))
  }

  lemma {:induction false} ProjectionsAfterSplit(acc: MountSet, projs: seq<VolumeProjection>, k: nat)
    requires k <= |projs|
    ensures ProjectionsAfter(acc, projs, k) == Concat(acc, ProjectionMounts(projs, k))
    decreases k
  {
    if k == 0 {
      assert acc.mounts + [] == acc.mounts && acc.volumes + [] == acc.volumes;
    } else {
      ProjectionsAfterSplit(acc, projs, k - 1);
      ConcatAssociative(acc, ProjectionMounts(projs, k - 1), VolumeProjectionMount(k - 1, projs[k - 1]));
    }
  }

  /** acc followed by everything generateVolumeMounts appends to it, in the
      order it appends it. */
  function VolumeMountsAfter(acc: MountSet, c: Consts, role: Role, withSystemd: bool): MountSet {
    var fixed := Concat(Concat(acc, TmpfsSupport(c.tmpFSVolSize)), SecretVolume(role.secret));
    var projected := ProjectionsAfter(fixed, role.volumeProjections, |role.volumeProjections|);
    if withSystemd then Concat(projected, SystemdSupport(c.cgroupFSVolume, c.systemdFSVolume)) else projected
  }

  lemma VolumeMountsAfterSplit(acc: MountSet, c: Consts, role: Role, withSystemd: bool)
    ensures VolumeMountsAfter(acc, c, role, withSystemd) == Concat(acc, NonClaimMounts(c, role, withSystemd))
  {
    var t, s := TmpfsSupport(c.tmpFSVolSize), SecretVolume(role.secret);
    var p := ProjectionMounts(role.volumeProjections, |role.volumeProjections|);
    var d := if withSystemd then SystemdSupport(c.cgroupFSVolume, c.systemdFSVolume) else NoMounts;
    ConcatAssociative(acc, t, s);
    ProjectionsAfterSplit(Concat(Concat(acc, t), s), role.volumeProjections, |role.volumeProjections|);
    ConcatAssociative(acc, Concat(t, s), p);
    ConcatAssociative(acc, Concat(Concat(t, s), p), d);
    var q := Concat(Concat(acc, t), s);
    assert Concat(q, p) == Concat(acc, Concat(Concat(t, s), p));
    if !withSystemd {
      var r := Concat(Concat(t, s), p);
      assert r.mounts + [] == r.mounts && r.volumes + [] == r.volumes;
    }
  }

  predicate NamesDistinct(vs: seq<Volume>) {
    forall i, j :: 0 <= i < j < |vs| ==> vs[i].name != vs[j].name
  }

  lemma NamesDistinctConcat(a: seq<Volume>, b: seq<Volume>)
    requires NamesDistinct(a) && NamesDistinct(b)
    requires forall i, j :: 0 <= i < |a| && 0 <= j < |b| ==> a[i].name != b[j].name
    ensures NamesDistinct(a + b)
  {
  }

  /** The first two characters of a volume name; each group of volumes
      below has its own. */
  function Tag(name: string): string {
    if |name| < 2 then name else name[..2]
  }

  /** Every name in vs has one of the given tags. */
  predicate AllTagged(vs: seq<Volume>, tags: set<string>) {
    forall i :: 0 <= i < |vs| ==> Tag(vs[i].name) in tags
  }

  /** Two name-distinct lists whose tags differ join into a name-distinct
      list. */
  lemma JoinTagged(a: seq<Volume>, ta: set<string>, b: seq<Volume>, tb: set<string>)
    requires NamesDistinct(a) && NamesDistinct(b)
    requires AllTagged(a, ta) && AllTagged(b, tb) && ta !! tb
    ensures NamesDistinct(a + b) && AllTagged(a + b, ta + tb)
  {
    forall i, j | 0 <= i < |a| && 0 <= j < |b| ensures a[i].name != b[j].name {
      assert Tag(a[i].name) in ta && Tag(b[j].name) in tb;
    }
    NamesDistinctConcat(a, b);
  }

  /** Volumes named "projected-vol-<index>" by position. */
  predicate NamedByIndex(p: seq<Volume>) {
    forall i :: 0 <= i < |p| ==> p[i].name == "projected-vol-" + Decimal(i)
  }

  lemma IndexedNamesTagged(p: seq<Volume>)
    requires NamedByIndex(p)
    ensures AllTagged(p, {"pr"})
  {
    forall i | 0 <= i < |p| ensures Tag(p[i].name) == "pr" {
      assert p[i].name[..2] == "pr";
    }
  }

  lemma IndexedNamesDistinct(p: seq<Volume>)
    requires NamedByIndex(p)
    ensures NamesDistinct(p)
  {
    forall i, j | 0 <= i < j < |p| ensures p[i].name != p[j].name {
      if p[i].name == p[j].name {
        PrefixedDecimalInjective("projected-vol-", i, j);
      }
    }
  }

  lemma ProjectionNamesTagged(projs: seq<VolumeProjection>)
    ensures AllTagged(ProjectionMounts(projs, |projs|).volumes, {"pr"})
    ensures NamesDistinct(ProjectionMounts(projs, |projs|).volumes)
  {
    var p := ProjectionMounts(projs, |projs|).volumes;
    assert NamedByIndex(p);
    IndexedNamesTagged(p);
    IndexedNamesDistinct(p);
  }

  lemma TmpfsNamesTagged(tmpFSVolSize: string)
    ensures var t := TmpfsSupport(tmpFSVolSize).volumes;
      NamesDistinct(t) && AllTagged(t, {"tm"})
  {
    var t := TmpfsSupport(tmpFSVolSize).volumes;
    assert Tag(t[0].name) == "tm" && Tag(t[1].name) == "tm" && Tag(t[2].name) == "tm";
  }

  lemma SecretNamesTagged(secret: Option<KDSecret>)
    ensures var s := SecretVolume(secret).volumes;
      NamesDistinct(s) && AllTagged(s, {"se"})
  {
    var s := SecretVolume(secret).volumes;
    if secret.Some? {
      assert s[0].name == "secret-vol-" + secret.value.name;
      assert Tag(s[0].name) == "se";
    }
  }

  lemma SystemdNamesTagged(c: Consts, withSystemd: bool)
    ensures var d := (if withSystemd then SystemdSupport(c.cgroupFSVolume, c.systemdFSVolume) else NoMounts).volumes;
      NamesDistinct(d) && AllTagged(d, {"cg", "sy"})
  {
    if withSystemd {
      var d := SystemdSupport(c.cgroupFSVolume, c.systemdFSVolume).volumes;
      assert Tag(d[0].name) == "cg" && Tag(d[1].name) == "sy";
    }
  }

  /** The four groups of volumes, each name-distinct with its own tags,
      join into a name-distinct list. */
  lemma JoinFour(t: seq<Volume>, s: seq<Volume>, p: seq<Volume>, d: seq<Volume>)
    requires NamesDistinct(t) && AllTagged(t, {"tm"})
    requires NamesDistinct(s) && AllTagged(s, {"se"})
    requires NamesDistinct(p) && AllTagged(p, {"pr"})
    requires NamesDistinct(d) && AllTagged(d, {"cg", "sy"})
    ensures NamesDistinct(t + s + p + d)
  {
    JoinTagged(t, {"tm"}, s, {"se"});
    JoinTagged(t + s, {"tm", "se"}, p, {"pr"});
    JoinTagged(t + s + p, {"tm", "se", "pr"}, d, {"cg", "sy"});
  }

  /** The pod volumes built beside the claim mounts never share a name: the
      platform rejects a pod whose volumes do. */
  lemma NonClaimVolumeNamesDistinct(c: Consts, role: Role, withSystemd: bool)
    ensures NamesDistinct(NonClaimMounts(c, role, withSystemd).volumes)
  {
    var t := TmpfsSupport(c.tmpFSVolSize).volumes;
    var s := SecretVolume(role.secret).volumes;
    var p := ProjectionMounts(role.volumeProjections, |role.volumeProjections|).volumes;
    var d := (if withSystemd then SystemdSupport(c.cgroupFSVolume, c.systemdFSVolume) else NoMounts).volumes;
    TmpfsNamesTagged(c.tmpFSVolSize);
    SecretNamesTagged(role.secret);
    SystemdNamesTagged(c, withSystemd);
    ProjectionNamesTagged(role.volumeProjections);
    JoinFour(t, s, p, d);
    assert NonClaimMounts(c, role, withSystemd).volumes == t + s + p + d;
  }

  /** generateVolumeMounts: claim mounts only when the role has storage;
      systemd support only when the application requires systemd and the
      platform lacks native support. A failed systemd lookup is returned as
      is, together with the mounts built up to that point (everything but
      systemd support). */
  method GenerateVolumeMounts(
    c: Consts,
    role: Role,
    pvcNamePrefix: string,
    nativeSystemdSupport: bool,
    persistDirs: seq<Path>,
    systemdRequired: Result<bool>)
    returns (volumeMounts: seq<VolumeMount>, volumes: seq<Volume>, err: Option<Error>)
    ensures err == (if systemdRequired.Err? then Some(systemdRequired.error) else None)
    ensures var rest := NonClaimMounts(c, role, systemdRequired.Ok? && systemdRequired.value && !nativeSystemdSupport);
      && volumeMounts == (if role.storage.Some? then ClaimMounts(pvcNamePrefix, persistDirs) else []) + rest.mounts
      && volumes == rest.volumes
  {
    volumeMounts := [];
    volumes := [];
    if role.storage.Some? {
      volumeMounts := GenerateClaimMounts(pvcNamePrefix, persistDirs);
    }
    ghost var start := MountSet(volumeMounts, volumes);

    var tmpfs := TmpfsSupport(c.tmpFSVolSize);
    volumeMounts := volumeMounts + tmpfs.mounts;
    volumes := volumes + tmpfs.volumes;

    var secret := SecretVolume(role.secret);
    volumeMounts := volumeMounts + secret.mounts;
    volumes := volumes + secret.volumes;

    ghost var fixed := MountSet(volumeMounts, volumes);
    var numVolumes := |role.volumeProjections|;
    for i := 0 to numVolumes
      invariant MountSet(volumeMounts, volumes) == ProjectionsAfter(fixed, role.volumeProjections, i)
    {
      var projection := VolumeProjectionMount(i, role.volumeProjections[i]);
      volumeMounts := volumeMounts + projection.mounts;
      volumes := volumes + projection.volumes;
    }

    ghost var withSystemd := systemdRequired.Ok? && systemdRequired.value && !nativeSystemdSupport;
    VolumeMountsAfterSplit(start, c, role, withSystemd);
    assert [] + NonClaimMounts(c, role, withSystemd).volumes == NonClaimMounts(c, role, withSystemd).volumes;
    if systemdRequired.Err? {
      err := Some(systemdRequired.error);
      return;
    }
    err := None;
    if systemdRequired.value && !nativeSystemdSupport {
      var cgroup := SystemdSupport(c.cgroupFSVolume, c.systemdFSVolume);
      volumeMounts := volumeMounts + cgroup.mounts;
      volumes := volumes + cgroup.volumes;
    }
  }

  // ---------------------------------------------------------------------
  // Raw block devices and claim templates

  /** How many block devices a role asks for; a negative count asks for
      none, as the counting loop then never runs. */
  function BlockCount(blockStorage: Option<BlockStorage>): (n: nat)
    ensures blockStorage.None? ==> n == 0
    ensures blockStorage.Some? ==> n as int == if blockStorage.value.numDevices < 0 then 0 else blockStorage.value.numDevices
  {
    if blockStorage.None? || blockStorage.value.numDevices < 0 then 0 else blockStorage.value.numDevices
  }

  /** The device list of getStatefulset: device i is exposed at the
      configured path followed by i, and refers to the claim template
      blockPvcNamePrefix followed by i. A negative count gives no devices. */
  function BlockDevices(blockPvcNamePrefix: string, blockStorage: Option<BlockStorage>): (ds: seq<VolumeDevice>)
    ensures |ds| == BlockCount(blockStorage)
    ensures forall i :: 0 <= i < |ds| ==>
      ds[i] == VolumeDevice(blockPvcNamePrefix + Decimal(i), blockStorage.value.path + Decimal(i))
  {
    var n := BlockCount(blockStorage);
    seq(n, i requires 0 <= i < n => VolumeDevice(blockPvcNamePrefix + Decimal(i), blockStorage.value.path + Decimal(i)))
  }

  /** The block-device loop of getStatefulset. */
  method BlockVolumeDevices(blockPvcNamePrefix: string, blockStorage: Option<BlockStorage>)
    returns (volumeDevices: seq<VolumeDevice>)
    ensures volumeDevices == BlockDevices(blockPvcNamePrefix, blockStorage)
  {
    volumeDevices := [];
    if blockStorage.Some? {
      var numDevices := blockStorage.value.numDevices;
      var i: int := 0;
      while i < numDevices
        invariant 0 <= i && |volumeDevices| == i
        invariant i <= if numDevices < 0 then 0 else numDevices
        invariant forall j :: 0 <= j < i ==>
          volumeDevices[j] == VolumeDevice(blockPvcNamePrefix + Decimal(j), blockStorage.value.path + Decimal(j))
        decreases numDevices - i
      {
        var deviceID := Decimal(i);
        var devicePath := blockStorage.value.path + deviceID;
        var deviceName := blockPvcNamePrefix + deviceID;
        volumeDevices := volumeDevices + [VolumeDevice(deviceName, devicePath)];
        i := i + 1;
      }
      assert i == BlockCount(blockStorage);
    }
  }

  /** No two devices share a name or a device path. */
  lemma DeviceNamesDistinct(blockPvcNamePrefix: string, blockStorage: Option<BlockStorage>)
    ensures var ds := BlockDevices(blockPvcNamePrefix, blockStorage);
      forall i, j :: 0 <= i < j < |ds| ==> ds[i].name != ds[j].name && ds[i].devicePath != ds[j].devicePath
  {
    var ds := BlockDevices(blockPvcNamePrefix, blockStorage);
    forall i, j | 0 <= i < j < |ds|
      ensures ds[i].name != ds[j].name && ds[i].devicePath != ds[j].devicePath
    {
      if ds[i].name == ds[j].name {
        PrefixedDecimalInjective(blockPvcNamePrefix, i, j);
      }
      if ds[i].devicePath == ds[j].devicePath {
        PrefixedDecimalInjective(blockStorage.value.path, i, j);
      }
    }
  }

  function FsTemplateCount(role: Role): nat {
    if role.storage.Some? then 1 else 0
  }

  function FsTemplate(role: Role, pvcNamePrefix: string): ClaimTemplate
    requires role.storage.Some?
  {
    ClaimTemplate(pvcNamePrefix, [ReadWriteOnce], role.storage.value.size, role.storage.value.storageClass, None)
  }

  function BlockTemplate(c: Consts, bs: BlockStorage, i: nat): ClaimTemplate {
    ClaimTemplate(c.blockPvcNamePrefix + Decimal(i), [ReadWriteOnce], bs.size.GetOr(c.defaultBlockDeviceSize), bs.storageClass, Some(Block))
  }

  /** The claim templates of getVolumeClaimTemplate: a filesystem claim
      named after the role's claim prefix when the role has storage, then
      one raw block claim per device, in device order, sized as configured
      or by the default. Only the filesystem claim leaves the volume mode
      unset. */
  function ClaimTemplates(c: Consts, role: Role, pvcNamePrefix: string): (ts: seq<ClaimTemplate>)
    ensures |ts| == FsTemplateCount(role) + BlockCount(role.blockStorage)
    ensures role.storage.Some? ==> ts[0] == FsTemplate(role, pvcNamePrefix)
    ensures forall i :: 0 <= i < BlockCount(role.blockStorage) ==>
      ts[FsTemplateCount(role) + i] == BlockTemplate(c, role.blockStorage.value, i)
    ensures forall i :: 0 <= i < |ts| ==> (ts[i].volumeMode.None? <==> role.storage.Some? && i == 0)
  {
    var n := BlockCount(role.blockStorage);
    (if role.storage.Some? then [FsTemplate(role, pvcNamePrefix)] else [])
      + seq(n, i requires 0 <= i < n => BlockTemplate(c, role.blockStorage.value, i))
  }

  /** getVolumeClaimTemplate. */
  method GetVolumeClaimTemplate(c: Consts, role: Role, pvcNamePrefix: string)
    returns (volTemplate: seq<ClaimTemplate>)
    ensures volTemplate == ClaimTemplates(c, role, pvcNamePrefix)
  {
    volTemplate := [];
    if role.storage.Some? {
      var volClaim := ClaimTemplate(pvcNamePrefix, [ReadWriteOnce], role.storage.value.size, role.storage.value.storageClass, None);
      volTemplate := volTemplate + [volClaim];
    }
    ghost var f := |volTemplate|;
    if role.blockStorage.Some? {
      var bs := role.blockStorage.value;
      var blockVolSize := c.defaultBlockDeviceSize;
      if bs.size.Some? {
        blockVolSize := bs.size.value;
      }
      var numDevices := bs.numDevices;
      var i: int := 0;
      while i < numDevices
        invariant 0 <= i && |volTemplate| == f + i
        invariant i <= if numDevices < 0 then 0 else numDevices
        invariant role.storage.Some? ==> volTemplate[0] == FsTemplate(role, pvcNamePrefix)
        invariant forall j :: 0 <= j < i ==> volTemplate[f + j] == BlockTemplate(c, bs, j)
        decreases numDevices - i
      {
        var deviceName := c.blockPvcNamePrefix + Decimal(i);
        var blockClaim := ClaimTemplate(deviceName, [ReadWriteOnce], blockVolSize, bs.storageClass, Some(Block));
        volTemplate := volTemplate + [blockClaim];
        i := i + 1;
      }
      assert i == BlockCount(role.blockStorage);
    }
  }

  /** generateInitVolumeMounts: the role's claim, whole, at /mnt. */
  function InitVolumeMounts(pvcNamePrefix: string): (ms: seq<VolumeMount>)
    ensures |ms| == 1 && ms[0].name == pvcNamePrefix && ms[0].mountPath == "/mnt"
    ensures !ms[0].readOnly && ms[0].subPath == ""
  {
    [VolumeMount(pvcNamePrefix, "/mnt", false, "")]
  }
}
