/** The KubeDirector inputs the statefulset code reads: the role of a
    virtual cluster, its recorded status, application-catalog metadata, and
    the package constants that live outside statefulset.go. */
module ClusterTypes {
  import opened Wrappers
  import opened Paths

  /** Go's int32. */
  type Int32 = x: int | -0x8000_0000 <= x < 0x8000_0000

  /** A resource.Quantity; only whether it is zero matters here, so it is
      kept as its amount counted in a unit small enough to be exact. */
  datatype Quantity = Quantity(amount: int) {
    predicate IsZero() { amount == 0 }
  }

  /** v1.ResourceRequirements. */
  datatype Resources = Resources(requests: map<string, Quantity>, limits: map<string, Quantity>)

  datatype EnvVar = EnvVar(name: string, value: string)

  /** kdv1.RoleStorage: a filesystem claim (size kept as its text). */
  datatype Storage = Storage(size: string, storageClass: Option<string>)

  /** kdv1.BlockStorage: numDevices raw block claims, exposed at
      path + index. */
  datatype BlockStorage = BlockStorage(
    numDevices: Int32,
    path: string,
    size: Option<string>,
    storageClass: Option<string>)

  /** kdv1.KDSecret. */
  datatype KDSecret = KDSecret(
    name: string,
    mountPath: string,
    readOnly: bool,
    defaultMode: Option<Int32>)

  /** kdv1.VolumeProjections: an existing claim mounted into the pod. */
  datatype VolumeProjection = VolumeProjection(pvcName: string, mountPath: string, readOnly: bool)

  /** Scheduling rules; carried through unchanged, kept in serialized form. */
  datatype Affinity = Affinity(encoded: string)

  /** kdv1.Role, the fields statefulset.go reads. */
  datatype Role = Role(
    name: string,
    resources: Resources,
    envVars: seq<EnvVar>,
    storage: Option<Storage>,
    blockStorage: Option<BlockStorage>,
    serviceAccountName: string,
    secret: Option<KDSecret>,
    volumeProjections: seq<VolumeProjection>,
    affinity: Option<Affinity>)

  /** kdv1.RoleStatus: the statefulset name recorded for the role ("" when
      none is recorded yet). */
  datatype RoleStatus = RoleStatus(statefulSet: string)

  /** kdv1.SetupPackageInfo. */
  datatype SetupPackageInfo = SetupPackageInfo(useNewSetupLayout: bool)

  /** v1beta1 naming schemes; the field is a string in Go, so a value that is
      neither known scheme is possible. */
  datatype NamingScheme = CrNameRole | UID | OtherScheme(text: string)

  /** A catalog.PortsForRole entry. */
  datatype PortInfo = PortInfo(id: string, port: Int32)

  /** catalog.RoleContainerSpecs' result. */
  datatype ContainerSpecs = ContainerSpecs(tty: bool, stdin: bool)

  /** Package-level constants used by statefulset.go but defined in other
      files of the executor and shared packages; their values are not part
      of this model, so every operation takes them as this parameter. Paths
      are clean and absolute. */
  datatype Consts = Consts(
    pvcNamePrefix: string,                       // PvcNamePrefix
    blockPvcNamePrefix: string,
    statefulSetNamePrefix: string,
    initContainerName: string,
    appContainerName: string,                    // AppContainerName
    kubedirectorInit: Path,                      // sentinel marker file
    kubedirectorInitLogs: Path,                  // rsync log file
    kubedirectorInitProgressBar: Path,           // rsync progress output
    defaultBlockDeviceSize: string,
    tmpFSVolSize: string,
    cgroupFSVolume: string,
    systemdFSVolume: string,
    nvidiaGpuResourceName: string,
    nvidiaGpuVisWorkaroundEnvVarName: string,
    nvidiaGpuVisWorkaroundEnvVarValue: string,
    configCliLoc: string)                        // shared.ConfigCliLoc
}
