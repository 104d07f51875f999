/**
 * policy/visitor.go: the traversal every container rule is built on.
 *
 * visitContainers calls its visitor once per container; here it returns the
 * ordered sequence of (container, path builder) pairs it would call the
 * visitor with, and each rule runs its visitor body over that sequence.
 */
module Visitor {
  import opened Wrappers
  import opened Field
  import opened Paths
  import opened Api
  import opened Seqs

  datatype Visit = Visit(container: Container, pathFn: PathFn)

  /** Ephemeral containers seen through their common container fields. */
  function Commons(es: seq<EphemeralContainer>): (cs: seq<Container>)
    ensures |cs| == |es|
    ensures forall i :: 0 <= i < |es| ==> cs[i] == es[i].common
  {
    seq(|es|, i requires 0 <= i < |es| => es[i].common)
  }

  /** Every container of the pod: init, then regular, then ephemeral. */
  function AllContainers(spec: PodSpec): seq<Container>
  {
    spec.initContainers + spec.containers + Commons(spec.ephemeralContainers)
  }

  /** The builder handed over with container i of a collection. */
  function ContainerPathFn(base: PathFn, i: int, opts: Options): PathFn
  {
    if opts.withFieldErrors then IndexPath(base, i) else NoPath
  }

  function CollectionVisits(cs: seq<Container>, base: PathFn, opts: Options): (vs: seq<Visit>)
    ensures |vs| == |cs|
    ensures forall i :: 0 <= i < |cs| ==> vs[i] == Visit(cs[i], ContainerPathFn(base, i, opts))
  {
    seq(|cs|, i requires 0 <= i < |cs| => Visit(cs[i], ContainerPathFn(base, i, opts)))
  }

  function ContainerVisits(spec: PodSpec, opts: Options): seq<Visit>
  {
    CollectionVisits(spec.initContainers, InitContainersFldPath, opts)
    + CollectionVisits(spec.containers, ContainersFldPath, opts)
    + CollectionVisits(Commons(spec.ephemeralContainers), EphemeralContainersFldPath, opts)
  }

  /** visitContainers: the three index loops, yielding the visits in call order. */
  method VisitContainers(spec: PodSpec, opts: Options) returns (visits: seq<Visit>)
    ensures visits == ContainerVisits(spec, opts)
  {
    visits := [];
    for i := 0 to |spec.initContainers|
      invariant visits == CollectionVisits(spec.initContainers[..i], InitContainersFldPath, opts)
    {
      var pathFn := NoPath;
      if opts.withFieldErrors {
        pathFn := IndexPath(InitContainersFldPath, i);
      }
      visits := visits + [Visit(spec.initContainers[i], pathFn)];
    }
    assert spec.initContainers[..|spec.initContainers|] == spec.initContainers;
    ghost var inits := visits;
    for i := 0 to |spec.containers|
      invariant visits == inits + CollectionVisits(spec.containers[..i], ContainersFldPath, opts)
    {
      var pathFn := NoPath;
      if opts.withFieldErrors {
        pathFn := IndexPath(ContainersFldPath, i);
      }
      visits := visits + [Visit(spec.containers[i], pathFn)];
    }
    assert spec.containers[..|spec.containers|] == spec.containers;
    ghost var regulars := visits;
    for i := 0 to |spec.ephemeralContainers|
      invariant visits == regulars
        + CollectionVisits(Commons(spec.ephemeralContainers)[..i], EphemeralContainersFldPath, opts)
    {
      var pathFn := NoPath;
      if opts.withFieldErrors {
        pathFn := IndexPath(EphemeralContainersFldPath, i);
      }
      visits := visits + [Visit(spec.ephemeralContainers[i].common, pathFn)];
    }
    assert Commons(spec.ephemeralContainers)[..|spec.ephemeralContainers|] == Commons(spec.ephemeralContainers);
  }

  /** One visit per container, in the order init, regular, ephemeral, each
      collection in index order. */
  lemma VisitOrder(spec: PodSpec, opts: Options)
    ensures |ContainerVisits(spec, opts)|
         == |spec.initContainers| + |spec.containers| + |spec.ephemeralContainers|
    ensures |ContainerVisits(spec, opts)| == |AllContainers(spec)|
    ensures forall k :: 0 <= k < |AllContainers(spec)| ==>
      ContainerVisits(spec, opts)[k].container == AllContainers(spec)[k]
  {
  }

  /** Without field errors every visitor call gets the absent builder. */
  lemma VisitPathsWithoutFieldErrors(spec: PodSpec, opts: Options)
    requires !opts.withFieldErrors
    ensures forall k :: 0 <= k < |ContainerVisits(spec, opts)| ==> ContainerVisits(spec, opts)[k].pathFn == NoPath
  {
  }

  /** With field errors container i of a collection at path p gets a builder yielding p[i]. */
  lemma CollectionPaths(cs: seq<Container>, p: Path, opts: Options)
    requires opts.withFieldErrors
    ensures forall i :: 0 <= i < |cs| ==>
      CollectionVisits(cs, PathThunk(Some(p)), opts)[i].pathFn == PathThunk(Some(p + [Index(i)]))
  {
  }

  /** With field errors the i-th init container is visited with a builder
      yielding spec.initContainers[i]. */
  lemma InitVisitPaths(spec: PodSpec, opts: Options)
    requires opts.withFieldErrors
    ensures forall i :: 0 <= i < |spec.initContainers| ==>
      ContainerVisits(spec, opts)[i].pathFn
        == PathThunk(Some([Child("spec"), Child("initContainers"), Index(i)]))
  {
    PathConstants();
    var init := [Child("spec"), Child("initContainers")];
    var a := CollectionVisits(spec.initContainers, InitContainersFldPath, opts);
    CollectionPaths(spec.initContainers, init, opts);
    forall i | 0 <= i < |a|
      ensures ContainerVisits(spec, opts)[i].pathFn
        == PathThunk(Some([Child("spec"), Child("initContainers"), Index(i)]))
    {
      assert ContainerVisits(spec, opts)[i] == a[i];
      assert init + [Index(i)] == [Child("spec"), Child("initContainers"), Index(i)];
    }
  }

  /** With field errors the i-th regular container is visited, after the init
      containers, with a builder yielding spec.containers[i]. */
  lemma RegularVisitPaths(spec: PodSpec, opts: Options)
    requires opts.withFieldErrors
    ensures forall i :: 0 <= i < |spec.containers| ==>
      ContainerVisits(spec, opts)[|spec.initContainers| + i].pathFn
        == PathThunk(Some([Child("spec"), Child("containers"), Index(i)]))
  {
    PathConstants();
    var regular := [Child("spec"), Child("containers")];
    var a := CollectionVisits(spec.initContainers, InitContainersFldPath, opts);
    var b := CollectionVisits(spec.containers, ContainersFldPath, opts);
    CollectionPaths(spec.containers, regular, opts);
    forall i | 0 <= i < |b|
      ensures ContainerVisits(spec, opts)[|a| + i].pathFn
        == PathThunk(Some([Child("spec"), Child("containers"), Index(i)]))
    {
      assert ContainerVisits(spec, opts)[|a| + i] == b[i];
      assert regular + [Index(i)] == [Child("spec"), Child("containers"), Index(i)];
    }
  }

  /** With field errors the i-th ephemeral container is visited last, through
      its common fields, with a builder yielding spec.ephemeralContainers[i]. */
  lemma EphemeralVisitPaths(spec: PodSpec, opts: Options)
    requires opts.withFieldErrors
    ensures forall i :: 0 <= i < |spec.ephemeralContainers| ==>
      var v := ContainerVisits(spec, opts)[|spec.initContainers| + |spec.containers| + i];
      && v.pathFn == PathThunk(Some([Child("spec"), Child("ephemeralContainers"), Index(i)]))
      && v.container == spec.ephemeralContainers[i].common
  {
    PathConstants();
    var ephemeral := [Child("spec"), Child("ephemeralContainers")];
    var n := |spec.initContainers| + |spec.containers|;
    var c := CollectionVisits(Commons(spec.ephemeralContainers), EphemeralContainersFldPath, opts);
    CollectionPaths(Commons(spec.ephemeralContainers), ephemeral, opts);
    forall i | 0 <= i < |c|
      ensures ContainerVisits(spec, opts)[n + i].pathFn
        == PathThunk(Some([Child("spec"), Child("ephemeralContainers"), Index(i)]))
      ensures ContainerVisits(spec, opts)[n + i].container == spec.ephemeralContainers[i].common
    {
      assert ContainerVisits(spec, opts)[n + i] == c[i];
      assert ephemeral + [Index(i)] == [Child("spec"), Child("ephemeralContainers"), Index(i)];
    }
  }

  // ---------------------------------------------------------------------------
  // Addressing by plain paths, independent of the builders

  const InitContainersAddress: Path := [Child("spec"), Child("initContainers")]
  const ContainersAddress: Path := [Child("spec"), Child("containers")]
  const EphemeralContainersAddress: Path := [Child("spec"), Child("ephemeralContainers")]

  /** What g reports for each container of a collection at `base`, container i
      being addressed as base + [i], concatenated in index order. */
  function IndexedFlatMap<U>(cs: seq<Container>, base: Path, g: (Container, Path) -> seq<U>): seq<U>
  {
    if cs == [] then []
    else IndexedFlatMap(cs[..|cs| - 1], base, g) + g(cs[|cs| - 1], base + [Index(|cs| - 1)])
  }

  /** What g reports for every container of the pod at its address: init
      containers, then regular containers, then ephemeral containers. */
  function PodFlatMap<U>(spec: PodSpec, g: (Container, Path) -> seq<U>): seq<U>
  {
    IndexedFlatMap(spec.initContainers, InitContainersAddress, g)
    + IndexedFlatMap(spec.containers, ContainersAddress, g)
    + IndexedFlatMap(Commons(spec.ephemeralContainers), EphemeralContainersAddress, g)
  }

  /** A pod with regular containers only is reported through those. */
  lemma ContainersOnly<U>(spec: PodSpec, g: (Container, Path) -> seq<U>)
    requires spec.initContainers == [] && spec.ephemeralContainers == []
    ensures PodFlatMap(spec, g) == IndexedFlatMap(spec.containers, ContainersAddress, g)
  {
    assert Commons(spec.ephemeralContainers) == [];
  }

  lemma {:induction false} CollectionFlatMap<U>(
    cs: seq<Container>, base: Path, opts: Options, f: Visit -> seq<U>, g: (Container, Path) -> seq<U>)
    requires opts.withFieldErrors
    requires forall c, p :: f(Visit(c, PathThunk(Some(p)))) == g(c, p)
    ensures FlatMap(CollectionVisits(cs, PathThunk(Some(base)), opts), f) == IndexedFlatMap(cs, base, g)
  {
    if cs != [] {
      var n := |cs| - 1;
      var vs := CollectionVisits(cs, PathThunk(Some(base)), opts);
      assert vs[..n] == CollectionVisits(cs[..n], PathThunk(Some(base)), opts);
      CollectionFlatMap(cs[..n], base, opts, f, g);
      assert vs[n] == Visit(cs[n], PathThunk(Some(base + [Index(n)])));
    }
  }

  /** With field errors, whatever a visitor body reports from the builder it
      is handed equals what it would report from each container's address:
      the builders yield exactly spec.initContainers[i], spec.containers[i]
      and spec.ephemeralContainers[i]. */
  lemma VisitFlatMap<U>(spec: PodSpec, opts: Options, f: Visit -> seq<U>, g: (Container, Path) -> seq<U>)
    requires opts.withFieldErrors
    requires forall c, p :: f(Visit(c, PathThunk(Some(p)))) == g(c, p)
    ensures FlatMap(ContainerVisits(spec, opts), f) == PodFlatMap(spec, g)
  {
    PathConstants();
    var a := CollectionVisits(spec.initContainers, InitContainersFldPath, opts);
    var b := CollectionVisits(spec.containers, ContainersFldPath, opts);
    var c := CollectionVisits(Commons(spec.ephemeralContainers), EphemeralContainersFldPath, opts);
    CollectionFlatMap(spec.initContainers, InitContainersAddress, opts, f, g);
    CollectionFlatMap(spec.containers, ContainersAddress, opts, f, g);
    CollectionFlatMap(Commons(spec.ephemeralContainers), EphemeralContainersAddress, opts, f, g);
    FlatMapAppend(a + b, c, f);
    FlatMapAppend(a, b, f);
  }

  /** A visitor body that looks only at the container reports, over the
      visits, what it reports over the containers visited. */
  lemma {:induction false} FlatMapContainers<U>(
    visits: seq<Visit>, cs: seq<Container>, f: Visit -> seq<U>, g: Container -> seq<U>)
    requires |visits| == |cs|
    requires forall k :: 0 <= k < |cs| ==> visits[k].container == cs[k]
    requires forall v :: f(v) == g(v.container)
    ensures FlatMap(visits, f) == FlatMap(cs, g)
  {
    if cs != [] {
      var n := |cs| - 1;
      FlatMapContainers(visits[..n], cs[..n], f, g);
    }
  }
}
