/** chkModifyEnvVars: the environment of the app container is the role's
    own list with at most two variables appended. */
module EnvPolicy {
  import opened Wrappers
  import opened ClusterTypes

  /** The role's setup package uses the new layout. */
  predicate UsesNewSetupLayout(setupInfo: Option<SetupPackageInfo>) {
    setupInfo.Some? && setupInfo.value.useNewSetupLayout
  }

  /** The role requests a nonzero quantity of NVIDIA GPUs. */
  predicate GpuRequested(c: Consts, role: Role) {
    c.nvidiaGpuResourceName in role.resources.requests
    && !role.resources.requests[c.nvidiaGpuResourceName].IsZero()
  }

  function PythonUserBase(c: Consts): EnvVar {
    EnvVar("PYTHONUSERBASE", c.configCliLoc)
  }

  /** The variable that keeps a GPU from being surfaced in a container
      that did not ask for one. */
  function GpuWorkaround(c: Consts): EnvVar {
    EnvVar(c.nvidiaGpuVisWorkaroundEnvVarName, c.nvidiaGpuVisWorkaroundEnvVarValue)
  }

  /** chkModifyEnvVars: the role's variables, unchanged and first; then
      PYTHONUSERBASE when the setup package uses the new layout; then the
      GPU workaround unless a nonzero GPU quantity is requested (a request
      of zero counts as none). */
  function ChkModifyEnvVars(c: Consts, role: Role, setupInfo: Option<SetupPackageInfo>): (envVar: seq<EnvVar>)
    ensures |envVar| == |role.envVars| + (if UsesNewSetupLayout(setupInfo) then 1 else 0)
                                       + (if GpuRequested(c, role) then 0 else 1)
    ensures envVar[..|role.envVars|] == role.envVars
    ensures UsesNewSetupLayout(setupInfo) ==> envVar[|role.envVars|] == PythonUserBase(c)
    ensures !GpuRequested(c, role) ==> envVar[|envVar| - 1] == GpuWorkaround(c)
  {
    var withPython := role.envVars + (if UsesNewSetupLayout(setupInfo) then [PythonUserBase(c)] else []);
    if GpuRequested(c, role) then withPython else withPython + [GpuWorkaround(c)]
  }

  /** The appended variables depend only on the setup package and the GPU
      request: two roles that agree on those get the same additions. */
  lemma AdditionsIndependentOfRoleEnv(c: Consts, r1: Role, r2: Role, setupInfo: Option<SetupPackageInfo>)
    requires r1.resources.requests == r2.resources.requests
    ensures ChkModifyEnvVars(c, r1, setupInfo)[|r1.envVars|..] == ChkModifyEnvVars(c, r2, setupInfo)[|r2.envVars|..]
  {
    var e1, e2 := ChkModifyEnvVars(c, r1, setupInfo), ChkModifyEnvVars(c, r2, setupInfo);
    var a1, a2 := e1[|r1.envVars|..], e2[|r2.envVars|..];
    assert |a1| == |a2|;
    forall i | 0 <= i < |a1| ensures a1[i] == a2[i] {
      if UsesNewSetupLayout(setupInfo) && i == 0 {
        assert a1[i] == PythonUserBase(c) == a2[i];
      } else {
        assert a1[i] == GpuWorkaround(c) == a2[i];
      }
    }
  }
}
