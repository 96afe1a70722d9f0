/** The Kubernetes objects statefulset.go composes (apps/v1 StatefulSet and
    the core/v1 pieces inside it), reduced to the fields it sets. */
module KubeTypes {
  import opened Wrappers
  import opened ClusterTypes

  datatype VolumeMount = VolumeMount(name: string, mountPath: string, readOnly: bool, subPath: string)

  datatype VolumeSource =
    | EmptyDir(medium: string, sizeLimit: string)
    | HostPath(path: string)
    | SecretSource(secretName: string, defaultMode: Option<Int32>)
    | ClaimSource(claimName: string, readOnly: bool)

  datatype Volume = Volume(name: string, source: VolumeSource)

  datatype VolumeDevice = VolumeDevice(name: string, devicePath: string)

  datatype AccessMode = ReadWriteOnce

  datatype VolumeMode = Block

  /** A PersistentVolumeClaim template; volumeMode is None when Go leaves
      the pointer nil (the platform then uses Filesystem). */
  datatype ClaimTemplate = ClaimTemplate(
    name: string,
    accessModes: seq<AccessMode>,
    size: string,
    storageClass: Option<string>,
    volumeMode: Option<VolumeMode>)

  /** v1.SecurityContext: the user to run as, and capabilities to add. */
  datatype SecurityContext = SecurityContext(runAsUser: Option<int>, addCapabilities: Option<seq<string>>)

  datatype ContainerPort = ContainerPort(name: string, containerPort: Int32)

  datatype Container = Container(
    name: string,
    image: string,
    command: seq<string>,
    args: seq<string>,
    resources: Resources,
    ports: seq<ContainerPort>,
    volumeMounts: seq<VolumeMount>,
    volumeDevices: seq<VolumeDevice>,
    securityContext: Option<SecurityContext>,
    env: seq<EnvVar>,
    tty: bool,
    stdin: bool)

  datatype PodSpec = PodSpec(
    automountServiceAccountToken: bool,
    initContainers: seq<Container>,
    affinity: Option<Affinity>,
    serviceAccountName: string,
    containers: seq<Container>,
    volumes: seq<Volume>)

  datatype PodTemplate = PodTemplate(labels: map<string, string>, annotations: map<string, string>, spec: PodSpec)

  /** An owner reference, as produced by the shared helpers; opaque here. */
  datatype OwnerReference = OwnerReference(apiVersion: string, kind: string, name: string, uid: string)

  datatype ObjectMeta = ObjectMeta(
    namespace: string,
    name: string,
    generateName: string,
    ownerReferences: seq<OwnerReference>,
    labels: map<string, string>,
    annotations: map<string, string>)

  /** Unspecified is Go's empty string, the zero value. */
  datatype PodManagementPolicy = Unspecified | OrderedReady | Parallel

  datatype StatefulSetSpec = StatefulSetSpec(
    podManagementPolicy: PodManagementPolicy,
    replicas: Int32,
    serviceName: string,
    selector: map<string, string>,
    template: PodTemplate,
    volumeClaimTemplates: seq<ClaimTemplate>)

  datatype StatefulSet = StatefulSet(meta: ObjectMeta, spec: StatefulSetSpec)

  /** appsv1.StatefulSet{}: the zero value. */
  function EmptyStatefulSet(): StatefulSet {
    StatefulSet(
      ObjectMeta("", "", "", [], map[], map[]),
      StatefulSetSpec(
        Unspecified, 0, "", map[],
        PodTemplate(map[], map[], PodSpec(false, [], None, "", [], [])),
        []))
  }

  function WithReplicas(s: StatefulSet, replicas: Int32): StatefulSet {
    s.(spec := s.spec.(replicas := replicas))
  }
}
