/**
 * The records the rules read and return: the pod (metadata and spec, reduced
 * to the fields the five rules look at), the per-call options, the
 * CheckResult, and the declarative Check a rule is registered as.
 */
module Api {
  import opened Wrappers
  import opened Field

  /** Go's int32, the type of a container port number. */
  type Int32 = x: int | -0x8000_0000 <= x < 0x8000_0000

  // ---------------------------------------------------------------------------
  // The pod

  datatype SELinuxOptions = SELinuxOptions(user: string, role: string, seLinuxType: string, level: string)

  datatype SecurityContext = SecurityContext(
    privileged: Option<bool>,
    procMount: Option<string>,
    seLinuxOptions: Option<SELinuxOptions>)

  datatype ContainerPort = ContainerPort(name: string, hostPort: Int32, containerPort: Int32)

  datatype Container = Container(
    name: string,
    ports: seq<ContainerPort>,
    securityContext: Option<SecurityContext>)

  /** An ephemeral container embeds the fields common with a container. */
  datatype EphemeralContainer = EphemeralContainer(common: Container, targetContainerName: string)

  datatype PodSecurityContext = PodSecurityContext(seLinuxOptions: Option<SELinuxOptions>)

  datatype PodSpec = PodSpec(
    initContainers: seq<Container>,
    containers: seq<Container>,
    ephemeralContainers: seq<EphemeralContainer>,
    securityContext: Option<PodSecurityContext>)

  /** Annotations in the order a map iteration happens to yield them. */
  datatype ObjectMeta = ObjectMeta(annotations: seq<(string, string)>)

  datatype Options = Options(withFieldErrors: bool)

  // ---------------------------------------------------------------------------
  // Results and declarations

  datatype CheckResult = CheckResult(
    allowed: bool,
    forbiddenReason: string,
    forbiddenDetail: string,
    errList: Option<seq<Error>>)

  /** CheckResult{Allowed: true}: no reason, no detail, no error list. */
  const AllowedResult := CheckResult(true, "", "", None)

  datatype Level = Privileged | Baseline | Restricted

  datatype Version = Version(major: nat, minor: nat)

  predicate VersionLess(a: Version, b: Version)
  {
    a.major < b.major || (a.major == b.major && a.minor < b.minor)
  }

  /** The rule bodies a VersionedCheck can point at. */
  datatype RuleBody =
    | HostPortsBody
    | ProcMountBody
    | PrivilegedBody
    | SELinuxOptionsBody
    | AppArmorProfileBody

  datatype VersionedCheck = VersionedCheck(minimumVersion: Version, checkPod: RuleBody)

  datatype Check = Check(id: string, level: Level, versions: seq<VersionedCheck>)

  /** What registration demands of a Check: an id, at least one version, and
      strictly increasing minimum versions. */
  ghost predicate WellFormedCheck(c: Check)
  {
    && |c.id| > 0
    && |c.versions| > 0
    && forall i, j :: 0 <= i < j < |c.versions| ==>
         VersionLess(c.versions[i].minimumVersion, c.versions[j].minimumVersion)
  }
}
