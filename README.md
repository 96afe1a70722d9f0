# kubedirector statefulset executor, modelled in Dafny

This project models `pkg/executor/statefulset.go` of kubedirector. That file
builds the Kubernetes StatefulSet implementing one role of a virtual cluster,
and creates, updates and deletes it through the API client. The model covers:

- the persist-directory resolver (`addToDirs` and its two calls). It merges
  the default and application directory lists into one list that holds no
  duplicates and no nested directories, and still covers every input. It is
  written as an imperative method over an `array` buffer and proved against
  the specification functions `Survivors` and `Resolve`;
- the mount and volume composer, the block-device loop and
  `getVolumeClaimTemplate`. The loops are methods proved equal to
  specification functions, and the name correspondences between claims,
  devices, mounts and volumes are lemmas;
- the init container and its bootstrap command: the sentinel guard, the rsync
  probe, the cp/rsync branch and the final touch, as string structure;
- the environment-variable policy, the security context, the naming rule and
  the order in which `getStatefulset` reports catalog errors;
- the reconciler entry points. `UpdateStatefulSetReplicas` has a single
  conflict-driven refetch and retry; `UpdateStatefulSetNonReplicas` repairs
  owner references; `CreateStatefulSet` and `DeleteStatefulSet` complete the
  set. All of them run against a scripted client that answers the k-th
  request with `replies(k)` and logs every request.

Paths are sequences of clean segments. `Paths.Under` is the resolver's own
test: `filepath.Rel` followed by `!strings.HasPrefix(rel, "..")` and
`rel != "."`. It agrees with "proper segment prefix" except for segment
names that begin with `..`. For example, `/a/..b` is not seen as lying under
`/a`. The model keeps that behaviour (`Paths.DotDotNamedChildNotCovered`).
So the resolver's "no nesting" holds for its own test only: `/a` and `/a/..b`
are both kept and both become claim mounts
(`PersistDirs.DotDotChildResolvedBesideParent`).

Package constants (`PvcNamePrefix`, `blockPvcNamePrefix`, the init-log file
names, the tmpfs size, GPU names and so on) are the fields of
`ClusterTypes.Consts`. The model holds for every value of them that its
types can hold. The init sentinel, log and progress files are of type
`Paths.Path`, so only absolute paths can be given. The note in `Consts` that
they are clean is a comment, not a constraint.

## Model

| member | source | states |
|---|---|---|
| PersistDirs.DefaultPersistDirs | pkg/executor/statefulset.go:253-268 | `/etc` alone without a setup package; otherwise the new-layout or legacy list chosen by `UseNewSetupLayout`; every choice contains `/etc` and only clean paths |
| PersistDirs.Survivors | pkg/executor/statefulset.go:291-342 | the entries of a prefix of the source list that `addToDirs` appends: all of them taken from the source list, never more than the prefix holds |
| PersistDirs.CoveredWithinSource | pkg/executor/statefulset.go:294-309 | the first inner loop finds a covering entry exactly when some entry of the same list is an ancestor or an earlier duplicate |
| PersistDirs.CoveredByOtherList | pkg/executor/statefulset.go:310-327 | the second inner loop finds a covering entry exactly when the other list has an ancestor, or an equal entry and duplicates are checked |
| PersistDirs.AddToDirs | pkg/executor/statefulset.go:284-343 | appends into the buffer exactly the surviving entries, in order, after the entries already there; at most one per source entry |
| PersistDirs.ResolvePersistDirs | pkg/executor/statefulset.go:270-358 | the two `addToDirs` calls into a buffer sized `len(defaults)+len(appDirs)` produce `Resolve`: no duplicates, no nesting, every input covered, length bounded by the inputs |
| PersistDirs.SurvivorsMember | pkg/executor/statefulset.go:291-342 | a directory is appended iff it sits at some index that passes the covering tests |
| PersistDirs.KeptIsFirstRoot | pkg/executor/statefulset.go:294-327 | an index passes iff it is the first occurrence of its directory, has no ancestor in its own list and is not covered by the other list |
| PersistDirs.SurvivorsExactly | pkg/executor/statefulset.go:291-342 | as a set, the survivors of a list are its entries with no ancestor in it that the other list does not cover |
| PersistDirs.Resolve | pkg/executor/statefulset.go:350-358 | the resolved list holds only offered (default or app) directories and has no more entries than were offered |
| PersistDirs.ResolveIsRoots | pkg/executor/statefulset.go:350-358 | a directory is in the resolved list iff it was offered (default or app) and no offered directory is its ancestor |
| PersistDirs.SurvivorsNoDuplicates | pkg/executor/statefulset.go:303-307 | within one list only the first of equal entries survives, so survivors never repeat |
| PersistDirs.ResolveNoDuplicates | pkg/executor/statefulset.go:350-358 | no directory appears twice in the resolved list; an app directory equal to a default is dropped |
| PersistDirs.ResolveNoNesting | pkg/executor/statefulset.go:294-327 | no resolved directory lies under another resolved directory, in the sense of the resolver's own `Paths.Under` test |
| PersistDirs.DotDotChildResolvedBesideParent | pkg/executor/statefulset.go:294-327 | `/a` and `/a/..b` both survive resolution although the first is a segment prefix of the second, so "no nesting" is relative to `Under`, not to true ancestry |
| PersistDirs.ResolveCoversInputs | pkg/executor/statefulset.go:345-358 | every default and every app directory equals or lies under some resolved directory |
| PersistDirs.SurvivorsInOrder | pkg/executor/statefulset.go:291-342 | the survivors are a subsequence of the source list, in its order |
| PersistDirs.ResolveOrder | pkg/executor/statefulset.go:350-358 | surviving defaults come first, then surviving app directories, each a subsequence of its list; no surviving app directory equals a default; no app list means no app entries; length at most the input total |
| Paths.UnderIsProperDescendant | pkg/executor/statefulset.go:296-298 | without segments starting with `..`, the Rel/HasPrefix test is exactly "proper segment prefix" |
| Paths.DotDotNamedChildNotCovered | pkg/executor/statefulset.go:296-297 | for every directory, a descendant whose first segment below it begins with `..` (such as `/a/..b` below `/a`) is not seen as covered by it |
| Paths.UnderTransitive | pkg/executor/statefulset.go:296-300 | lying under is transitive |
| Paths.RenderInjective | pkg/executor/statefulset.go:293 | distinct clean paths have distinct absolute string forms |
| Paths.Parent | pkg/executor/statefulset.go:691 | `filepath.Dir` of a clean absolute path drops its last segment, and the root stays the root |
| Volumes.ClaimMounts | pkg/executor/statefulset.go:857-873 | one mount per directory, in order, all naming the role's claim, at the directory, read-write, with the directory minus its leading `/` as sub-path |
| Volumes.GenerateClaimMounts | pkg/executor/statefulset.go:857-873 | the loop builds exactly `ClaimMounts` |
| Volumes.ClaimSubPathsDistinct | pkg/executor/statefulset.go:857-873 | distinct clean directories get distinct sub-paths and mount paths on the one claim |
| Volumes.TmpfsSupport | pkg/executor/statefulset.go:934-983 | three paired mounts at `/tmp`, `/run`, `/run/lock`, read-write, backed by memory-medium empty dirs of the configured size |
| Volumes.SecretVolume | pkg/executor/statefulset.go:742-769 | nothing without a secret; otherwise one paired mount and secret volume named `secret-vol-` plus the secret name |
| Volumes.VolumeProjectionMount | pkg/executor/statefulset.go:773-799 | projection i is mounted as `projected-vol-`+i at its mount path, backed by its claim with its read-only flag |
| Volumes.ProjectionMounts | pkg/executor/statefulset.go:773-799 | one paired volume per projection, named by index, backed by its claim |
| Volumes.SystemdSupport | pkg/executor/statefulset.go:893-929 | the cgroup host path mounted read-only and the systemd host path read-write, both paired |
| Volumes.NonClaimMounts | pkg/executor/statefulset.go:807-853 | tmpfs, secret, projections, then systemd: every mount paired with the volume of the same name; volume count 3 + secret + projections + 2 when systemd is mounted |
| Volumes.VolumeMountsAfterSplit | pkg/executor/statefulset.go:820-850 | appending the groups one by one equals appending their concatenation |
| Volumes.ProjectionNamesTagged | pkg/executor/statefulset.go:773-799 | projection volume names are pairwise distinct |
| Volumes.NonClaimVolumeNamesDistinct | pkg/executor/statefulset.go:742-983 | no two pod volumes share a name |
| Volumes.GenerateVolumeMounts | pkg/executor/statefulset.go:807-853 | claim mounts only with storage, then `NonClaimMounts`; systemd support iff required and not native; a failed systemd lookup is returned |
| Volumes.BlockCount | pkg/executor/statefulset.go:380-382 | no devices without block storage; otherwise `NumDevices`, where a negative count gives none |
| Volumes.BlockDevices | pkg/executor/statefulset.go:376-396 | device i is named `blockPvcNamePrefix`+decimal(i), at `Path`+decimal(i), for i below the device count |
| Volumes.BlockVolumeDevices | pkg/executor/statefulset.go:376-396 | the counted loop builds exactly `BlockDevices` |
| Volumes.DeviceNamesDistinct | pkg/executor/statefulset.go:382-394 | no two devices share a name or a device path |
| Volumes.ClaimTemplates | pkg/executor/statefulset.go:571-638 | a filesystem template first iff storage is set, then one block template per device; only the filesystem template leaves the volume mode unset |
| Volumes.GetVolumeClaimTemplate | pkg/executor/statefulset.go:571-638 | the loop builds exactly `ClaimTemplates`, with the default block size unless a size is given |
| Volumes.InitVolumeMounts | pkg/executor/statefulset.go:877-888 | one read-write mount of the whole claim at `/mnt` |
| Bootstrap.ProbeUsesCopyOptions | pkg/executor/statefulset.go:670-681 | the probe `RsyncInstalledCmd` runs rsync with `--log-file` and the same options as the rsync copy, only asking for `--version`, and ends by storing its exit status in `RSYNC_CHECK_STATUS` |
| Bootstrap.RsyncCmdUsesCopyOptions | pkg/executor/statefulset.go:685-700 | right after creating its log directory, `RsyncCmd` runs one rsync call with its log file on the claim and the options the probe checked |
| Bootstrap.LaunchIsThreePieces | pkg/executor/statefulset.go:716-738 | `InitContainerLaunch` is exactly the probe with the sentinel test, then one group joined to that test by `&&`, then the touch of the sentinel, and nothing else. In the group the status test `[ ${RSYNC_CHECK_STATUS} != 0 ]` is followed by `&&` and `CpCmd`, then by the `or` operator and `RsyncCmd` (the text structure of line 730) |
| Bootstrap.LaunchCopiesByProbeStatus | pkg/executor/statefulset.go:716-738 | the copy group with `CpCmd` and `RsyncCmd` starts right after the probe and the sentinel test |
| Bootstrap.LaunchGuardsAndTouchesSentinel | pkg/executor/statefulset.go:716-738 | `InitContainerLaunch` (built from `LaunchBody`) begins with the rsync probe and the sentinel test, and ends by touching the sentinel |
| Bootstrap.OperandsWords | pkg/executor/statefulset.go:696 | the joined operand list splits back into exactly the directories, in order |
| Bootstrap.CpCmdWords | pkg/executor/statefulset.go:704-710 | the words of `CpCmd` are `cp --parent -ax`, the directories in order, then `/mnt` |
| Bootstrap.RsyncCmdWords | pkg/executor/statefulset.go:685-700 | the words of `RsyncCmd` are its fixed head, the directories in order, then `/mnt`, `>` and the progress file on the claim |
| Bootstrap.GetInitContainer | pkg/executor/statefulset.go:528-564 | no init container without storage; otherwise exactly one, running `/bin/bash -c <launch>` as uid 0 with the role's image and resources and the claim at `/mnt` |
| EnvPolicy.ChkModifyEnvVars | pkg/executor/statefulset.go:485-522 | the role's variables unchanged as a prefix; then `PYTHONUSERBASE` iff the setup package uses the new layout; then the GPU workaround iff no nonzero GPU request |
| EnvPolicy.AdditionsIndependentOfRoleEnv | pkg/executor/statefulset.go:492-520 | the appended variables depend only on the setup package and the requests, not on the role's own variables |
| Synthesizer.Ports | pkg/executor/statefulset.go:238-245 | one container port per catalog port, in order, with its id and number |
| Synthesizer.EndpointPorts | pkg/executor/statefulset.go:238-245 | the loop builds exactly `Ports` |
| Synthesizer.GenerateSecurityContext | pkg/executor/statefulset.go:988-1006 | the catalog error is passed on; no context iff there are no capabilities; otherwise the capabilities are added and the user is left unset |
| Synthesizer.AppContainer | pkg/executor/statefulset.go:443-456 | the app container is named `AppContainerName` and runs the catalog image with the role's resources; its ports are `Ports`, its mounts `AppMounts`, its devices `BlockDevices`, its environment `ChkModifyEnvVars` and its security context `GenerateSecurityContext`; through `hasTTY` and `hasSTDIN` its TTY and stdin flags are set iff the catalog has container specs that ask for them, and are false without specs |
| Synthesizer.StatefulSetNaming | pkg/executor/statefulset.go:465-475 | a recorded name is used as Name; otherwise Name is empty and GenerateName is munged `cr-role-`, the UID prefix, or empty by scheme |
| Synthesizer.NamingExclusive | pkg/executor/statefulset.go:465-475 | Name and GenerateName are never both set |
| Synthesizer.FirstErrorIsACatalogError | pkg/executor/statefulset.go:233-405 | no error is reported iff every catalog lookup succeeds |
| Synthesizer.StorageClaimWiring | pkg/executor/statefulset.go:540-563 | with storage, the filesystem template, every claim mount and the init container's mount name the same claim |
| Synthesizer.NoStorageWiring | pkg/executor/statefulset.go:540-638 | without storage there is no init container and every template is a block claim |
| Synthesizer.DeviceTemplateWiring | pkg/executor/statefulset.go:376-396 | block device i uses the name of block template i, which is in Block mode |
| Synthesizer.ExpectedShape | pkg/executor/statefulset.go:360-433 | pods are managed in parallel, the replica count is the requested one, and the service-account token is mounted iff the role names an account |
| Synthesizer.ExpectedPod | pkg/executor/statefulset.go:432-459 | the pod runs exactly the app container, and its volumes are those of `generateVolumeMounts` |
| Synthesizer.AppMountsBackedByVolumes | pkg/executor/statefulset.go:364-370 | the app container's mounts are the claim mounts followed by the paired mounts of `generateVolumeMounts` |
| Synthesizer.Expected | pkg/executor/statefulset.go:409-476 | the composed statefulset is in the cluster's namespace and named by the naming rule; it carries the helpers' owner references and labels; its selector equals its pod template's labels; it uses the cluster service; its claim templates are `ClaimTemplates` and its init containers are `GetInitContainer` over the resolved directories |
| Synthesizer.GetStatefulset | pkg/executor/statefulset.go:218-478 | fails iff some catalog lookup fails, with the first such error in the order of the code; otherwise returns the composed statefulset `Expected`, whose app container has the `hasTTY`/`hasSTDIN` flags of `AppContainer` |
| Reconciler.Client.Send | pkg/executor/statefulset.go:86-212 | each request to the API server is logged after the earlier ones and answered by the next reply of the script |
| Reconciler.ReplicaRun | pkg/executor/statefulset.go:91-149 | one to three requests, starting with an Update carrying the requested replicas; at most two Updates and one Get; a non-conflict first outcome ends the run; on a Conflict the second request is a Get by namespace and name, and a Get happens only then; after a successful Get the third request is an Update of the fetched copy with the requested replicas; every Update carries the requested replicas; the error is the last reply's outcome; on success the final object is the last one sent and has the requested replicas |
| Reconciler.RetryUpdatesFetchedCopy | pkg/executor/statefulset.go:119-139 | a second Update happens only after a conflict and a successful Get, and writes the fetched object with only its replica count changed |
| Reconciler.UpdateStatefulSetReplicas | pkg/executor/statefulset.go:91-149 | sends the requests of `ReplicaRun`, returns its error and leaves the caller's object as the run leaves it |
| Reconciler.NonReplicasCalls | pkg/executor/statefulset.go:154-194 | no request iff there is no role or the owner references are present; otherwise one Patch that replaces the owner references and changes nothing else |
| Reconciler.UpdateStatefulSetNonReplicas | pkg/executor/statefulset.go:154-194 | sends the requests of `NonReplicasCalls`; success without a request, otherwise the Patch's outcome |
| Reconciler.CreateStatefulSet | pkg/executor/statefulset.go:67-87 | a failed composition returns its error and sends nothing; otherwise the composed statefulset with zero replicas is created, and the Create's outcome is returned |
| Reconciler.DeleteStatefulSet | pkg/executor/statefulset.go:197-213 | one Delete naming the namespace and statefulset; returns its outcome |

## Left out

- Network I/O: `shared.Create`, `Update`, `Get`, `Patch` and `Delete` are requests to a scripted client, whose replies are an input. An Update or a Create does not write the server's response back into the object. For example, the name the server assigns when `GenerateName` is used is not seen: `CreateStatefulSet` returns the object as composed.
- A failed Get leaves the caller's object as the cleared zero value (`KubeTypes.EmptyStatefulSet`). What a real client leaves there is not modelled.
- Patch semantics: a Patch request records the original and patched objects; how the server merges them is not modelled.
- Catalog lookups (`PortsForRole`, `AppPersistDirs`, `AppSetupPackageInfo`, `SystemdRequired`, `ImageForRole`, `AppCapabilities`, `RoleContainerSpecs`) are inputs (`Synthesizer.Catalog`), a value or an error each. The ignored error of `RoleContainerSpecs` is not represented.
- The label, annotation and owner-reference helpers, `OwnerReferencesPresent` and `MungObjectName` are inputs (`Synthesizer.Decorations`, a predicate, a function parameter). Their code is not part of this model.
- `getStartupScript` and the post-start lifecycle hook are not part of this model; the app container carries no lifecycle field.
- Logging and events (`LogError`, `LogInfof`) have no effect on results and are left out.
- `filepath.Abs` and `filepath.Rel` are not modelled. Inputs are clean absolute paths given as segments; `Paths.Under` states the outcome of the Rel/HasPrefix test on them, including its `..`-prefixed segment quirk.
- `resource.ParseQuantity` is not modelled and its ignored errors are not represented: sizes are kept as strings, and a requested quantity is an integer amount whose zero test is `amount == 0`.
- Nil pointers: a nil `NamingScheme`, `NumDevices` or `BlockStorage.Path` pointer (line 385), and a nil `Replicas` pointer in the update path, would panic in Go. Here the scheme and count are plain values and the replicas field always exists.
- Go slice aliasing: `append` onto `role.EnvVars` may share its backing array. The model returns a fresh sequence.
- The shell semantics of the bootstrap command are not modelled. Only its text structure is: words, prefix, infix, suffix and the exact three-part launch.
- Copy fall-through: the launch group at line 730 has the form `[ status != 0 ] && (cp) || (rsync)`. In bash it runs cp when the probe's status is nonzero, and rsync when the status is zero or when cp fails. So a failed cp is followed by an rsync that the probe found unusable. The model states only the text, not which branch bash takes.
- Unquoted directory operands: the cp and rsync commands join the directories with blanks and do not quote them (lines 696 and 708). A directory name with a blank, a tab, a newline or a shell metacharacter would be split or interpreted by bash. The word lemmas therefore assume names without blanks, and the model does not represent the other characters.
- Bootstrap.RsyncCmdWords: the words of the rsync command's fixed head (the mkdir of the log directory and the rsync options) are stated as one unexpanded head, not enumerated word by word.
- The `TypeMeta` (kind and API version) of the composed and deleted objects is a constant and is left out.
