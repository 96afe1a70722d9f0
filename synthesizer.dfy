/** getStatefulset: the StatefulSet that implements one role of a virtual
    cluster, composed from the role, the application catalog's answers and
    the pieces built by the other modules. */
module Synthesizer {
  import opened Wrappers
  import opened Strings
  import opened Paths
  import opened ClusterTypes
  import opened KubeTypes
  import opened PersistDirs
  import opened Volumes
  import opened Bootstrap
  import opened EnvPolicy

  /** The parts of the KubeDirectorCluster resource that getStatefulset
      reads. */
  datatype Cluster = Cluster(
    name: string,
    namespace: string,
    namingScheme: NamingScheme,
    clusterService: string)

  /** The application catalog's answers for the role, each a value or an
      error. The container-specs lookup has its error discarded, so only
      its value (none on error) is kept. */
  datatype Catalog = Catalog(
    ports: Result<seq<PortInfo>>,                  // catalog.PortsForRole
    appPersistDirs: Result<Option<seq<Path>>>,     // catalog.AppPersistDirs
    setupInfo: Result<Option<SetupPackageInfo>>,   // catalog.AppSetupPackageInfo
    systemdRequired: Result<bool>,                 // catalog.SystemdRequired
    image: Result<string>,                         // catalog.ImageForRole
    capabilities: Result<seq<string>>,             // catalog.AppCapabilities
    containerSpecs: Option<ContainerSpecs>)        // catalog.RoleContainerSpecs

  /** The results of the label, annotation and owner-reference helpers. */
  datatype Decorations = Decorations(
    labels: map<string, string>,
    podLabels: map<string, string>,
    annotations: map<string, string>,
    podAnnotations: map<string, string>,
    ownerReferences: seq<OwnerReference>)

  /** The Name and GenerateName of the statefulset's metadata. */
  datatype Naming = Naming(name: string, generateName: string)

  /** The app container's ports: one per catalog port, in order, named by
      the port's id. */
  function Ports(portInfoList: seq<PortInfo>): (ps: seq<ContainerPort>)
    ensures |ps| == |portInfoList|
    ensures forall i :: 0 <= i < |ps| ==> ps[i].name == portInfoList[i].id && ps[i].containerPort == portInfoList[i].port
  {
    seq(|portInfoList|, i requires 0 <= i < |portInfoList| => ContainerPort(portInfoList[i].id, portInfoList[i].port))
  }

  /** The port loop of getStatefulset. */
  method EndpointPorts(portInfoList: seq<PortInfo>) returns (endpointPorts: seq<ContainerPort>)
    ensures endpointPorts == Ports(portInfoList)
  {
    endpointPorts := [];
    for i := 0 to |portInfoList|
      invariant |endpointPorts| == i
      invariant forall j :: 0 <= j < i ==> endpointPorts[j] == ContainerPort(portInfoList[j].id, portInfoList[j].port)
    {
      var containerPort := ContainerPort(portInfoList[i].id, portInfoList[i].port);
      endpointPorts := endpointPorts + [containerPort];
    }
  }

  /** generateSecurityContext: the catalog's error is passed on; no
      capabilities give no security context; otherwise a context that adds
      exactly the application's capabilities. */
  function GenerateSecurityContext(capabilities: Result<seq<string>>): (r: Result<Option<SecurityContext>>)
    ensures r.Err? <==> capabilities.Err?
    ensures r.Err? ==> r.error == capabilities.error
    ensures r.Ok? ==> (r.value.None? <==> |capabilities.value| == 0)
    ensures r.Ok? && r.value.Some? ==> r.value.value.addCapabilities == Some(capabilities.value)
    ensures r.Ok? && r.value.Some? ==> r.value.value.runAsUser.None?
  {
    match capabilities
    case Err(e) => Err(e)
    case Ok(caps) => if |caps| == 0 then Ok(None) else Ok(Some(SecurityContext(None, Some(caps))))
  }

  /** hasTTY and hasSTDIN: false when the catalog has no container specs. */
  function HasTTY(specs: Option<ContainerSpecs>): bool {
    specs.Some? && specs.value.tty
  }

  function HasSTDIN(specs: Option<ContainerSpecs>): bool {
    specs.Some? && specs.value.stdin
  }

  /** No name is recorded for the role yet. */
  predicate Unnamed(roleStatus: Option<RoleStatus>) {
    roleStatus.None? || roleStatus.value.statefulSet == ""
  }

  /** The naming rule at the end of getStatefulset: a name already recorded
      in the role's status is reused; otherwise the platform generates one
      from a prefix chosen by the naming scheme, and an unknown scheme gives
      no prefix. */
  function StatefulSetNaming(
    c: Consts, crName: string, roleName: string, scheme: NamingScheme,
    roleStatus: Option<RoleStatus>, mung: string -> string): (n: Naming)
    ensures !Unnamed(roleStatus) ==> n == Naming(roleStatus.value.statefulSet, "")
    ensures Unnamed(roleStatus) ==> n.name == ""
    ensures Unnamed(roleStatus) && scheme.CrNameRole? ==> n.generateName == mung(crName + "-" + roleName) + "-"
    ensures Unnamed(roleStatus) && scheme.UID? ==> n.generateName == c.statefulSetNamePrefix
    ensures Unnamed(roleStatus) && scheme.OtherScheme? ==> n.generateName == ""
  {
    if Unnamed(roleStatus) then
      match scheme
      case CrNameRole => Naming("", mung(crName + "-" + roleName) + "-")
      case UID => Naming("", c.statefulSetNamePrefix)
      case OtherScheme(_) => Naming("", "")
    else
      Naming(roleStatus.value.statefulSet, "")
  }

  /** At most one of Name and GenerateName is set, and a recorded name is
      never replaced by a generated one. */
  lemma NamingExclusive(
    c: Consts, crName: string, roleName: string, scheme: NamingScheme,
    roleStatus: Option<RoleStatus>, mung: string -> string)
    ensures var n := StatefulSetNaming(c, crName, roleName, scheme, roleStatus, mung);
      (n.name == "" || n.generateName == "") && (n.name != "" <==> !Unnamed(roleStatus))
  {
  }

  /** The catalog error getStatefulset returns: the first failing lookup in
      the order it makes them (ports, persisted directories, setup package,
      systemd requirement, image, capabilities). */
  function FirstError(cat: Catalog): Option<Error> {
    if cat.ports.Err? then Some(cat.ports.error)
    else if cat.appPersistDirs.Err? then Some(cat.appPersistDirs.error)
    else if cat.setupInfo.Err? then Some(cat.setupInfo.error)
    else if cat.systemdRequired.Err? then Some(cat.systemdRequired.error)
    else if cat.image.Err? then Some(cat.image.error)
    else if cat.capabilities.Err? then Some(cat.capabilities.error)
    else None
  }

  /** There is no error exactly when every lookup succeeds. */
  lemma FirstErrorIsACatalogError(cat: Catalog)
    ensures FirstError(cat).None? <==>
      cat.ports.Ok? && cat.appPersistDirs.Ok? && cat.setupInfo.Ok?
      && cat.systemdRequired.Ok? && cat.image.Ok? && cat.capabilities.Ok?
  {
  }

  /** The directories the role's claim holds, when every lookup succeeds. */
  function PersistedDirs(cat: Catalog): seq<Path>
    requires cat.appPersistDirs.Ok? && cat.setupInfo.Ok?
  {
    Resolve(DefaultPersistDirs(cat.setupInfo.value), cat.appPersistDirs.value)
  }

  /** Systemd support is mounted when the application needs it and the
      platform does not provide it. */
  predicate WithSystemd(cat: Catalog, nativeSystemdSupport: bool)
    requires cat.systemdRequired.Ok?
  {
    cat.systemdRequired.value && !nativeSystemdSupport
  }

  /** The app container's mounts: one claim mount per resolved directory
      when the role has storage, then the mounts of generateVolumeMounts. */
  function AppMounts(c: Consts, role: Role, cat: Catalog, nativeSystemdSupport: bool): seq<VolumeMount>
    requires FirstError(cat).None?
  {
    (if role.storage.Some? then ClaimMounts(c.pvcNamePrefix, PersistedDirs(cat)) else [])
      + NonClaimMounts(c, role, WithSystemd(cat, nativeSystemdSupport)).mounts
  }

  /** The app container: the role's image, ports, resources and
      environment, the mounts of AppMounts and the role's block devices. */
  function AppContainer(c: Consts, role: Role, cat: Catalog, nativeSystemdSupport: bool): (app: Container)
    requires FirstError(cat).None?
    ensures app.name == c.appContainerName && app.image == cat.image.value && app.resources == role.resources
    ensures app.tty == (cat.containerSpecs.Some? && cat.containerSpecs.value.tty)
    ensures app.stdin == (cat.containerSpecs.Some? && cat.containerSpecs.value.stdin)
    ensures app.ports == Ports(cat.ports.value) && app.volumeMounts == AppMounts(c, role, cat, nativeSystemdSupport)
    ensures app.volumeDevices == BlockDevices(c.blockPvcNamePrefix, role.blockStorage)
    ensures app.env == ChkModifyEnvVars(c, role, cat.setupInfo.value)
    ensures app.securityContext == GenerateSecurityContext(cat.capabilities).value
  {
    Container(
      c.appContainerName, cat.image.value, [], [], role.resources, Ports(cat.ports.value),
      AppMounts(c, role, cat, nativeSystemdSupport),
      BlockDevices(c.blockPvcNamePrefix, role.blockStorage),
      GenerateSecurityContext(cat.capabilities).value, ChkModifyEnvVars(c, role, cat.setupInfo.value),
      HasTTY(cat.containerSpecs), HasSTDIN(cat.containerSpecs))
  }

  /** The statefulset getStatefulset composes when every lookup succeeds:
      in the cluster's namespace, named by the naming rule, owned and
      labelled as the helpers say, selecting exactly the pods its template
      labels, with the claim templates of getVolumeClaimTemplate and the
      init container of getInitContainer. */
  function Expected(
    c: Consts, cr: Cluster, nativeSystemdSupport: bool, role: Role, roleStatus: Option<RoleStatus>,
    replicas: Int32, cat: Catalog, deco: Decorations, mung: string -> string): (s: StatefulSet)
    requires FirstError(cat).None?
    ensures s.meta.namespace == cr.namespace
    ensures var n := StatefulSetNaming(c, cr.name, role.name, cr.namingScheme, roleStatus, mung);
      s.meta.name == n.name && s.meta.generateName == n.generateName
    ensures s.meta.ownerReferences == deco.ownerReferences && s.meta.labels == deco.labels
    ensures s.spec.selector == s.spec.template.labels == deco.podLabels
    ensures s.spec.serviceName == cr.clusterService
    ensures s.spec.volumeClaimTemplates == ClaimTemplates(c, role, c.pvcNamePrefix)
    ensures s.spec.template.spec.initContainers == GetInitContainer(c, role, c.pvcNamePrefix, cat.image.value, PersistedDirs(cat))
  {
    var persistDirs := PersistedDirs(cat);
    var rest := NonClaimMounts(c, role, WithSystemd(cat, nativeSystemdSupport));
    var app := AppContainer(c, role, cat, nativeSystemdSupport);
    var pod := PodSpec(
      role.serviceAccountName != "",
      GetInitContainer(c, role, c.pvcNamePrefix, cat.image.value, persistDirs),
      role.affinity, role.serviceAccountName, [app], rest.volumes);
    var n := StatefulSetNaming(c, cr.name, role.name, cr.namingScheme, roleStatus, mung);
    StatefulSet(
      ObjectMeta(cr.namespace, n.name, n.generateName, deco.ownerReferences, deco.labels, deco.annotations),
      StatefulSetSpec(Parallel, replicas, cr.clusterService, deco.podLabels,
        PodTemplate(deco.podLabels, deco.podAnnotations, pod), ClaimTemplates(c, role, c.pvcNamePrefix)))
  }

  /** With storage, the filesystem claim template, every claim mount of
      the app container and the init container's mount all name the same
      claim. */
  lemma StorageClaimWiring(c: Consts, role: Role, imageID: string, persistDirs: seq<Path>)
    requires role.storage.Some?
    ensures var ts := ClaimTemplates(c, role, c.pvcNamePrefix);
      && ts[0].name == c.pvcNamePrefix && ts[0].volumeMode.None?
      && (forall m :: m in ClaimMounts(c.pvcNamePrefix, persistDirs) ==> m.name == ts[0].name)
    ensures var init := GetInitContainer(c, role, c.pvcNamePrefix, imageID, persistDirs);
      |init| == 1 && init[0].volumeMounts[0].name == c.pvcNamePrefix
  {
    var ms := ClaimMounts(c.pvcNamePrefix, persistDirs);
    forall m | m in ms ensures m.name == c.pvcNamePrefix {
      var i :| 0 <= i < |ms| && ms[i] == m;
    }
  }

  /** Without storage there is no init container and every claim template
      is a block claim. */
  lemma NoStorageWiring(c: Consts, role: Role, imageID: string, persistDirs: seq<Path>)
    requires role.storage.None?
    ensures GetInitContainer(c, role, c.pvcNamePrefix, imageID, persistDirs) == []
    ensures forall t :: t in ClaimTemplates(c, role, c.pvcNamePrefix) ==> t.volumeMode == Some(Block)
  {
    var ts := ClaimTemplates(c, role, c.pvcNamePrefix);
    forall t | t in ts ensures t.volumeMode == Some(Block) {
      var i :| 0 <= i < |ts| && ts[i] == t;
    }
  }

  /** Block device i and block claim template i name the same claim. */
  lemma DeviceTemplateWiring(c: Consts, role: Role)
    ensures var ts := ClaimTemplates(c, role, c.pvcNamePrefix);
      var ds := BlockDevices(c.blockPvcNamePrefix, role.blockStorage);
      forall i :: 0 <= i < |ds| ==>
        ts[FsTemplateCount(role) + i].name == ds[i].name && ts[FsTemplateCount(role) + i].volumeMode == Some(Block)
  {
    var ts := ClaimTemplates(c, role, c.pvcNamePrefix);
    var ds := BlockDevices(c.blockPvcNamePrefix, role.blockStorage);
    forall i | 0 <= i < |ds|
      ensures ts[FsTemplateCount(role) + i].name == ds[i].name && ts[FsTemplateCount(role) + i].volumeMode == Some(Block)
    {
      assert ts[FsTemplateCount(role) + i] == BlockTemplate(c, role.blockStorage.value, i);
    }
  }

  /** The fixed facts of every composed statefulset: pods started in
      parallel, the requested replica count, and the service-account token
      mounted exactly when the role names an account. */
  lemma ExpectedShape(
    c: Consts, cr: Cluster, nativeSystemdSupport: bool, role: Role, roleStatus: Option<RoleStatus>,
    replicas: Int32, cat: Catalog, deco: Decorations, mung: string -> string)
    requires FirstError(cat).None?
    ensures var s := Expected(c, cr, nativeSystemdSupport, role, roleStatus, replicas, cat, deco, mung);
      && s.spec.podManagementPolicy == Parallel
      && s.spec.replicas == replicas
      && (s.spec.template.spec.automountServiceAccountToken <==> role.serviceAccountName != "")
  {
  }

  /** The pod runs exactly one container, the app container, and its
      volumes are those of generateVolumeMounts. */
  lemma ExpectedPod(
    c: Consts, cr: Cluster, nativeSystemdSupport: bool, role: Role, roleStatus: Option<RoleStatus>,
    replicas: Int32, cat: Catalog, deco: Decorations, mung: string -> string)
    requires FirstError(cat).None?
    ensures var pod := Expected(c, cr, nativeSystemdSupport, role, roleStatus, replicas, cat, deco, mung).spec.template.spec;
      && pod.containers == [AppContainer(c, role, cat, nativeSystemdSupport)]
      && pod.volumes == NonClaimMounts(c, role, WithSystemd(cat, nativeSystemdSupport)).volumes
  {
  }

  /** The number of claim mounts of the app container. */
  function ClaimCount(role: Role, cat: Catalog): nat
    requires FirstError(cat).None?
  {
    if role.storage.Some? then |PersistedDirs(cat)| else 0
  }

  /** The app container's mounts are its claim mounts followed by the
      mounts of generateVolumeMounts, each of which (Volumes.NonClaimMounts)
      is paired with the pod volume of the same name at the same offset. */
  lemma AppMountsBackedByVolumes(c: Consts, role: Role, cat: Catalog, nativeSystemdSupport: bool)
    requires FirstError(cat).None?
    ensures var rest := NonClaimMounts(c, role, WithSystemd(cat, nativeSystemdSupport));
      var mounts := AppMounts(c, role, cat, nativeSystemdSupport);
      && |mounts| == ClaimCount(role, cat) + |rest.volumes|
      && mounts[..ClaimCount(role, cat)] == (if role.storage.Some? then ClaimMounts(c.pvcNamePrefix, PersistedDirs(cat)) else [])
      && mounts[ClaimCount(role, cat)..] == rest.mounts
  {
    var rest := NonClaimMounts(c, role, WithSystemd(cat, nativeSystemdSupport));
    var claims := if role.storage.Some? then ClaimMounts(c.pvcNamePrefix, PersistedDirs(cat)) else [];
    var mounts := AppMounts(c, role, cat, nativeSystemdSupport);
    assert mounts == claims + rest.mounts;
    assert |claims| == ClaimCount(role, cat);
    assert mounts[..|claims|] == claims;
    assert mounts[|claims|..] == rest.mounts;
  }

  /** getStatefulset: the first failing catalog lookup is returned as the
      error; otherwise the composed statefulset. */
  method GetStatefulset(
    c: Consts, cr: Cluster, nativeSystemdSupport: bool, role: Role, roleStatus: Option<RoleStatus>,
    replicas: Int32, cat: Catalog, deco: Decorations, mung: string -> string)
    returns (r: Result<StatefulSet>)
    ensures r.Err? <==> FirstError(cat).Some?
    ensures r.Err? ==> r.error == FirstError(cat).value
    ensures r.Ok? ==> r.value == Expected(c, cr, nativeSystemdSupport, role, roleStatus, replicas, cat, deco, mung)
  {
    if cat.ports.Err? {
      return Err(cat.ports.error);
    }
    var endpointPorts := EndpointPorts(cat.ports.value);

    if cat.appPersistDirs.Err? {
      return Err(cat.appPersistDirs.error);
    }
    var appPersistDirs := cat.appPersistDirs.value;

    if cat.setupInfo.Err? {
      return Err(cat.setupInfo.error);
    }
    var setupInfo := cat.setupInfo.value;
    var defaultPersistDirs := DefaultPersistDirs(setupInfo);
    var persistDirs := ResolvePersistDirs(defaultPersistDirs, appPersistDirs);

    var useServiceAccount := role.serviceAccountName != "";
    var volumeMounts, volumes, volumesErr :=
      GenerateVolumeMounts(c, role, c.pvcNamePrefix, nativeSystemdSupport, persistDirs, cat.systemdRequired);
    if volumesErr.Some? {
      return Err(volumesErr.value);
    }

    var volumeDevices := BlockVolumeDevices(c.blockPvcNamePrefix, role.blockStorage);

    if cat.image.Err? {
      return Err(cat.image.error);
    }
    var imageID := cat.image.value;

    var securityContext := GenerateSecurityContext(cat.capabilities);
    if securityContext.Err? {
      return Err(securityContext.error);
    }

    var vct := GetVolumeClaimTemplate(c, role, c.pvcNamePrefix);

    var app := Container(
      c.appContainerName, imageID, [], [], role.resources, endpointPorts, volumeMounts, volumeDevices,
      securityContext.value, ChkModifyEnvVars(c, role, setupInfo),
      HasTTY(cat.containerSpecs), HasSTDIN(cat.containerSpecs));
    var pod := PodSpec(
      useServiceAccount,
      GetInitContainer(c, role, c.pvcNamePrefix, imageID, persistDirs),
      role.affinity, role.serviceAccountName, [app], volumes);
    var naming := StatefulSetNaming(c, cr.name, role.name, cr.namingScheme, roleStatus, mung);
    var sset := StatefulSet(
      ObjectMeta(cr.namespace, naming.name, naming.generateName, deco.ownerReferences, deco.labels, deco.annotations),
      StatefulSetSpec(Parallel, replicas, cr.clusterService, deco.podLabels,
        PodTemplate(deco.podLabels, deco.podAnnotations, pod), vct));
    return Ok(sset);
  }
}
