/**
 * policy/paths.go: the lazily built field path.
 *
 * A Go PathFn is a possibly nil closure that, when called, yields a path or
 * nil. Its three observable states are kept apart here: NoPath is the nil
 * closure, PathThunk(None) a closure that yields nil, PathThunk(Some(p)) one
 * that yields p. Deferring the work changes only its cost, so a closure is
 * represented by the value it yields.
 */
module Paths {
  import opened Wrappers
  import opened Field

  datatype PathFn = NoPath | PathThunk(path: Option<Path>)

  /** withPath: nil stays nil; otherwise a builder that yields exactly `path`. */
  function WithPath(path: Option<Path>): (r: PathFn)
    ensures path.None? <==> r.NoPath?
    ensures path.Some? ==> r.path == path
  {
    if path.None? then NoPath else PathThunk(path)
  }

  /** parent.index(i) */
  function IndexPath(parent: PathFn, i: int): (r: PathFn)
    ensures r.NoPath? <==> parent.NoPath?
    ensures r.PathThunk? ==> (r.path.None? <==> parent.path.None?)
    ensures r.PathThunk? && r.path.Some? ==> Extends(r.path.value, parent.path.value, [Index(i)])
  {
    match parent
    case NoPath => NoPath
    case PathThunk(None) => PathThunk(None)
    case PathThunk(Some(p)) => PathThunk(Some(p + [Index(i)]))
  }

  /** parent.child(name, moreNames...) */
  function ChildPath(parent: PathFn, name: string, moreNames: seq<string>): (r: PathFn)
    ensures r.NoPath? <==> parent.NoPath?
    ensures r.PathThunk? ==> (r.path.None? <==> parent.path.None?)
    ensures r.PathThunk? && r.path.Some? ==>
      Extends(r.path.value, parent.path.value, [Child(name)] + ChildSegments(moreNames))
  {
    match parent
    case NoPath => NoPath
    case PathThunk(None) => PathThunk(None)
    case PathThunk(Some(p)) => PathThunk(Some(p + NewPath(name, moreNames)))
  }

  /** parent.key(k) */
  function KeyPath(parent: PathFn, k: string): (r: PathFn)
    ensures r.NoPath? <==> parent.NoPath?
    ensures r.PathThunk? ==> (r.path.None? <==> parent.path.None?)
    ensures r.PathThunk? && r.path.Some? ==> Extends(r.path.value, parent.path.value, [Key(k)])
  {
    match parent
    case NoPath => NoPath
    case PathThunk(None) => PathThunk(None)
    case PathThunk(Some(p)) => PathThunk(Some(p + [Key(k)]))
  }

  /** `longer` keeps every segment of `p` and then has exactly `more`. */
  ghost predicate Extends(longer: Path, p: Path, more: seq<Segment>)
  {
    |longer| == |p| + |more|
    && (forall i :: 0 <= i < |p| ==> longer[i] == p[i])
    && (forall i :: 0 <= i < |more| ==> longer[|p| + i] == more[i])
  }

  // ---------------------------------------------------------------------------
  // Chains of compositions

  datatype Step =
    | ChildStep(name: string, moreNames: seq<string>)
    | IndexStep(i: int)
    | KeyStep(k: string)

  function ApplyStep(g: PathFn, step: Step): PathFn
  {
    match step
    case ChildStep(name, more) => ChildPath(g, name, more)
    case IndexStep(i) => IndexPath(g, i)
    case KeyStep(k) => KeyPath(g, k)
  }

  function Apply(f: PathFn, steps: seq<Step>): PathFn
  {
    if steps == [] then f
    else ApplyStep(Apply(f, steps[..|steps| - 1]), steps[|steps| - 1])
  }

  function StepSegments(step: Step): seq<Segment>
  {
    match step
    case ChildStep(name, more) => NewPath(name, more)
    case IndexStep(i) => [Index(i)]
    case KeyStep(k) => [Key(k)]
  }

  function ChainSegments(steps: seq<Step>): seq<Segment>
  {
    if steps == [] then []
    else ChainSegments(steps[..|steps| - 1]) + StepSegments(steps[|steps| - 1])
  }

  /** An absent builder stays absent through any chain of compositions: a nil
      root never yields a path, and no field error is ever built from it. */
  lemma {:induction false} AbsentChain(steps: seq<Step>)
    ensures Apply(NoPath, steps) == NoPath
  {
    if steps != [] {
      AbsentChain(steps[..|steps| - 1]);
    }
  }

  /** A builder that yields nil still yields nil after any chain. */
  lemma {:induction false} NilChain(steps: seq<Step>)
    ensures Apply(PathThunk(None), steps) == PathThunk(None)
  {
    if steps != [] {
      NilChain(steps[..|steps| - 1]);
    }
  }

  lemma SeqAssoc<T>(a: seq<T>, b: seq<T>, c: seq<T>)
    ensures a + b + c == a + (b + c)
  {
  }

  /** One composition applied to a builder that yields q. */
  lemma StepPresent(q: Path, step: Step)
    ensures ApplyStep(PathThunk(Some(q)), step) == PathThunk(Some(q + StepSegments(step)))
  {
  }

  /** A builder that yields p yields p followed by the chain's segments, in order. */
  lemma {:induction false} PresentChain(p: Path, steps: seq<Step>)
    ensures Apply(PathThunk(Some(p)), steps) == PathThunk(Some(p + ChainSegments(steps)))
  {
    if steps == [] {
      assert p + [] == p;
    } else {
      var n := |steps| - 1;
      PresentChain(p, steps[..n]);
      var q := p + ChainSegments(steps[..n]);
      StepPresent(q, steps[n]);
      assert Apply(PathThunk(Some(p)), steps) == ApplyStep(PathThunk(Some(q)), steps[n]);
      assert ChainSegments(steps) == ChainSegments(steps[..n]) + StepSegments(steps[n]);
      SeqAssoc(p, ChainSegments(steps[..n]), StepSegments(steps[n]));
    }
  }

  // ---------------------------------------------------------------------------
  // The precomputed paths of the package (policy/paths.go, lines 21-40)

  // annotationsPath is written out; PathConstants proves it equal to
  // withPath(field.NewPath("metadata", "annotations")).
  const AnnotationsPath := PathThunk(Some(AnnotationsAddress))
  const SpecPath := WithPath(Some(NewPath("spec", [])))
  const InitContainersFldPath := ChildPath(SpecPath, "initContainers", [])
  const ContainersFldPath := ChildPath(SpecPath, "containers", [])
  const EphemeralContainersFldPath := ChildPath(SpecPath, "ephemeralContainers", [])
  const SecurityContextPath := ChildPath(SpecPath, "securityContext", [])
  const HostNetworkPath := ChildPath(SpecPath, "hostNetwork", [])
  const HostPIDPath := ChildPath(SpecPath, "hostPID", [])
  const HostIPCPath := ChildPath(SpecPath, "hostIPC", [])
  const VolumesPath := ChildPath(SpecPath, "volumes", [])
  const RunAsNonRootPath := ChildPath(SecurityContextPath, "runAsNonRoot", [])
  const RunAsUserPath := ChildPath(SecurityContextPath, "runAsUser", [])
  const SeccompProfileTypePath := ChildPath(SecurityContextPath, "seccompProfile", ["type"])
  // The seLinuxOptions children are written out; PathConstants proves them
  // equal to securityContextPath.child("seLinuxOptions", leaf).
  const SELinuxOptionsTypePath := PathThunk(Some(SELinuxOptionsPodPath + [Child("type")]))
  const SELinuxOptionsUserPath := PathThunk(Some(SELinuxOptionsPodPath + [Child("user")]))
  const SELinuxOptionsRolePath := PathThunk(Some(SELinuxOptionsPodPath + [Child("role")]))
  const SysctlsPath := ChildPath(SecurityContextPath, "sysctls", [])
  const HostProcessPath := ChildPath(SecurityContextPath, "windowsOptions", ["hostProcess"])

  /** The precomputed builders yield fixed addresses. */
  lemma PathConstants()
    ensures AnnotationsPath == WithPath(Some(NewPath("metadata", ["annotations"])))
    ensures InitContainersFldPath == PathThunk(Some([Child("spec"), Child("initContainers")]))
    ensures ContainersFldPath == PathThunk(Some([Child("spec"), Child("containers")]))
    ensures EphemeralContainersFldPath == PathThunk(Some([Child("spec"), Child("ephemeralContainers")]))
    ensures SecurityContextPath == PathThunk(Some([Child("spec"), Child("securityContext")]))
    ensures SELinuxOptionsTypePath == ChildPath(SecurityContextPath, "seLinuxOptions", ["type"])
    ensures SELinuxOptionsUserPath == ChildPath(SecurityContextPath, "seLinuxOptions", ["user"])
    ensures SELinuxOptionsRolePath == ChildPath(SecurityContextPath, "seLinuxOptions", ["role"])
    ensures HostProcessPath
         == PathThunk(Some([Child("spec"), Child("securityContext"), Child("windowsOptions"), Child("hostProcess")]))
  {
    assert ChildSegments([]) == [];
    assert ChildSegments(["annotations"]) == [Child("annotations")];
    assert NewPath("metadata", ["annotations"]) == [Child("metadata"), Child("annotations")];
    assert NewPath("spec", []) == [Child("spec")];
    assert SpecPath == PathThunk(Some([Child("spec")]));
    ChildOfPath([Child("spec")], "initContainers");
    assert [Child("spec")] + [Child("initContainers")] == [Child("spec"), Child("initContainers")];
    ChildOfPath([Child("spec")], "containers");
    assert [Child("spec")] + [Child("containers")] == [Child("spec"), Child("containers")];
    ChildOfPath([Child("spec")], "ephemeralContainers");
    assert [Child("spec")] + [Child("ephemeralContainers")] == [Child("spec"), Child("ephemeralContainers")];
    ChildOfPath([Child("spec")], "securityContext");
    assert [Child("spec")] + [Child("securityContext")] == [Child("spec"), Child("securityContext")];
    var sc := [Child("spec"), Child("securityContext")];
    assert sc + [Child("seLinuxOptions")] == SELinuxOptionsPodPath;
    ChildOfPathTwice(sc, "seLinuxOptions", "type");
    assert sc + [Child("seLinuxOptions"), Child("type")] == SELinuxOptionsPodPath + [Child("type")];
    ChildOfPathTwice(sc, "seLinuxOptions", "user");
    assert sc + [Child("seLinuxOptions"), Child("user")] == SELinuxOptionsPodPath + [Child("user")];
    ChildOfPathTwice(sc, "seLinuxOptions", "role");
    assert sc + [Child("seLinuxOptions"), Child("role")] == SELinuxOptionsPodPath + [Child("role")];
    ChildOfPathTwice(sc, "windowsOptions", "hostProcess");
    assert sc + [Child("windowsOptions"), Child("hostProcess")]
        == [Child("spec"), Child("securityContext"), Child("windowsOptions"), Child("hostProcess")];
  }

  lemma ChildOfPath(p: Path, name: string)
    ensures ChildPath(PathThunk(Some(p)), name, []) == PathThunk(Some(p + [Child(name)]))
  {
    assert NewPath(name, []) == [Child(name)];
  }

  lemma ChildOfPathTwice(p: Path, name: string, next: string)
    ensures ChildPath(PathThunk(Some(p)), name, [next]) == PathThunk(Some(p + [Child(name), Child(next)]))
  {
    assert ChildSegments([next]) == [Child(next)];
    assert NewPath(name, [next]) == [Child(name), Child(next)];
  }

  /** metadata.annotations */
  const AnnotationsAddress: Path := [Child("metadata"), Child("annotations")]

  /** spec.securityContext.seLinuxOptions */
  const SELinuxOptionsPodPath: Path := [Child("spec"), Child("securityContext"), Child("seLinuxOptions")]
}
