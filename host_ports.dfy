/**
 * policy/check_hostPorts.go: no container may bind a host port.
 *
 * A container offends when one of its ports has a non-zero hostPort. Each
 * offending container is labelled once by name; the offending port numbers
 * are gathered, as decimal strings, into one sorted set for the detail.
 */
module HostPorts {
  import opened Wrappers
  import opened Field
  import opened Paths
  import opened Violations
  import opened Api
  import opened Visitor
  import opened Seqs
  import opened Strings

  /** CheckHostPorts: baseline, a single version from 1.0. */
  const CheckHostPorts := Check("hostPorts", Baseline, [VersionedCheck(Version(1, 0), HostPortsBody)])

  predicate BadContainer(c: Container)
  {
    exists j :: 0 <= j < |c.ports| && c.ports[j].hostPort != 0
  }

  /** The label a container contributes: its name when it offends. */
  function BadLabel(c: Container): seq<string>
  {
    if BadContainer(c) then [c.name] else []
  }

  /** The non-zero host ports of a port list, rendered, in list order. */
  function PortStrings(ports: seq<ContainerPort>): seq<string>
  {
    if ports == [] then []
    else
      var n := |ports| - 1;
      PortStrings(ports[..n]) + (if ports[n].hostPort != 0 then [Itoa(ports[n].hostPort)] else [])
  }

  function ContainerPortStrings(c: Container): seq<string>
  {
    PortStrings(c.ports)
  }

  /** The deferred error for port i: forbidden at <container>.ports[i].hostPort, with the port as bad value. */
  function PortErrFn(pathFn: PathFn, i: int, hostPort: int): ErrFn
  {
    WithBadValue(Forbidden(ChildPath(IndexPath(ChildPath(pathFn, "ports", []), i), "hostPort", [])), IntValue(hostPort))
  }

  /** The errFns the port loop gathers with field errors on. */
  function PortErrFns(ports: seq<ContainerPort>, pathFn: PathFn): seq<ErrFn>
  {
    if ports == [] then []
    else
      var n := |ports| - 1;
      PortErrFns(ports[..n], pathFn) + (if ports[n].hostPort != 0 then [PortErrFn(pathFn, n, ports[n].hostPort)] else [])
  }

  /** The field errors one visit adds with field errors on. */
  function VisitErrors(v: Visit): seq<Error>
  {
    Collected(PortErrFns(v.container.ports, v.pathFn))
  }

  function HostPortsDetail(labels: seq<string>, ports: seq<string>): string
  {
    Pluralize("container", "containers", |labels|) + " " + JoinQuote(labels) + " "
    + Pluralize("uses", "use", |labels|) + " "
    + Pluralize("hostPort", "hostPorts", |ports|) + " " + Join(ports, ", ")
  }

  /** The names of the offending containers, in visit order. */
  function Offenders(spec: PodSpec): seq<string>
  {
    FlatMap(AllContainers(spec), BadLabel)
  }

  /** forbiddenHostPorts.List(): the distinct offending ports, rendered and sorted. */
  function ForbiddenPorts(spec: PodSpec): seq<string>
  {
    SortedDistinct(FlatMap(AllContainers(spec), ContainerPortStrings))
  }

  /** What hostPortsV1Dot0 returns. */
  function HostPortsResult(spec: PodSpec, opts: Options): (r: CheckResult)
    ensures r.allowed ==> r == AllowedResult
    ensures !r.allowed ==> r.forbiddenReason == "hostPort"
    ensures r.errList.Some? <==> !r.allowed && opts.withFieldErrors
  {
    if Offenders(spec) == [] then AllowedResult
    else
      CheckResult(false, "hostPort",
                  HostPortsDetail(Offenders(spec), ForbiddenPorts(spec)),
                  if opts.withFieldErrors then Some(FlatMap(ContainerVisits(spec, opts), VisitErrors)) else None)
  }

  /** The index loop over one container's ports. */
  lemma PortLoopStep(ports: seq<ContainerPort>, i: nat, pathFn: PathFn)
    requires i < |ports|
    ensures PortStrings(ports[..i + 1])
         == PortStrings(ports[..i]) + (if ports[i].hostPort != 0 then [Itoa(ports[i].hostPort)] else [])
    ensures PortErrFns(ports[..i + 1], pathFn)
         == PortErrFns(ports[..i], pathFn) + (if ports[i].hostPort != 0 then [PortErrFn(pathFn, i, ports[i].hostPort)] else [])
  {
    assert ports[..i + 1][..i] == ports[..i];
  }

  /** A container without a non-zero port contributes no port and no error. */
  lemma {:induction false} CleanPorts(ports: seq<ContainerPort>, pathFn: PathFn)
    requires forall j :: 0 <= j < |ports| ==> ports[j].hostPort == 0
    ensures PortStrings(ports) == []
    ensures PortErrFns(ports, pathFn) == []
  {
    if ports != [] {
      CleanPorts(ports[..|ports| - 1], pathFn);
    }
  }

  /** The port loop of the visitor body: whether the container is clean, the
      errFns it gathers, and the port set after inserting its non-zero ports. */
  method ScanPorts(container: Container, pathFn: PathFn, opts: Options, forbiddenHostPorts: seq<string>)
    returns (valid: bool, errFns: seq<ErrFn>, forbidden: seq<string>)
    ensures valid <==> !BadContainer(container)
    ensures errFns == if opts.withFieldErrors then PortErrFns(container.ports, pathFn) else []
    ensures forbidden == InsertAll(forbiddenHostPorts, PortStrings(container.ports))
  {
    var ports := container.ports;
    valid := true;
    errFns := [];
    forbidden := forbiddenHostPorts;
    for i := 0 to |ports|
      invariant valid <==> forall j :: 0 <= j < i ==> ports[j].hostPort == 0
      invariant errFns == if opts.withFieldErrors then PortErrFns(ports[..i], pathFn) else []
      invariant forbidden == InsertAll(forbiddenHostPorts, PortStrings(ports[..i]))
    {
      PortLoopStep(ports, i, pathFn);
      var c := ports[i];
      if c.hostPort != 0 {
        valid := false;
        forbidden := Insert(forbidden, Itoa(c.hostPort));
        assert PortStrings(ports[..i + 1])[..|PortStrings(ports[..i + 1])| - 1] == PortStrings(ports[..i]);
        if opts.withFieldErrors {
          errFns := errFns + [PortErrFn(pathFn, i, c.hostPort)];
        }
      } else {
        assert PortStrings(ports[..i + 1]) == PortStrings(ports[..i]);
      }
    }
    assert ports[..|ports|] == ports;
  }

  function VisitLabel(v: Visit): seq<string>
  {
    BadLabel(v.container)
  }

  function VisitPortStrings(v: Visit): seq<string>
  {
    PortStrings(v.container.ports)
  }

  /** One more visit: what the k-th container adds to the labels, the port
      strings and the field errors. */
  lemma VisitStep(visits: seq<Visit>, k: nat)
    requires k < |visits|
    ensures FlatMap(visits[..k + 1], VisitPortStrings)
         == FlatMap(visits[..k], VisitPortStrings) + PortStrings(visits[k].container.ports)
    ensures BadContainer(visits[k].container) ==>
      FlatMap(visits[..k + 1], VisitLabel) == FlatMap(visits[..k], VisitLabel) + [visits[k].container.name]
    ensures BadContainer(visits[k].container) ==>
      FlatMap(visits[..k + 1], VisitErrors)
        == FlatMap(visits[..k], VisitErrors) + Collected(PortErrFns(visits[k].container.ports, visits[k].pathFn))
    ensures !BadContainer(visits[k].container) ==>
      && FlatMap(visits[..k + 1], VisitLabel) == FlatMap(visits[..k], VisitLabel)
      && FlatMap(visits[..k + 1], VisitErrors) == FlatMap(visits[..k], VisitErrors)
  {
    FlatMapStep(visits, k, VisitLabel);
    FlatMapStep(visits, k, VisitPortStrings);
    FlatMapStep(visits, k, VisitErrors);
    if !BadContainer(visits[k].container) {
      CleanPorts(visits[k].container.ports, visits[k].pathFn);
      assert FlatMap(visits[..k], VisitLabel) + [] == FlatMap(visits[..k], VisitLabel);
      assert FlatMap(visits[..k], VisitErrors) + [] == FlatMap(visits[..k], VisitErrors);
    }
  }

  /** Labels and port strings read over the visits are those read over the
      pod's containers. */
  lemma VisitedContainers(spec: PodSpec, opts: Options)
    ensures FlatMap(ContainerVisits(spec, opts), VisitLabel) == FlatMap(AllContainers(spec), BadLabel)
    ensures FlatMap(ContainerVisits(spec, opts), VisitPortStrings) == FlatMap(AllContainers(spec), ContainerPortStrings)
  {
    VisitOrder(spec, opts);
    FlatMapContainers(ContainerVisits(spec, opts), AllContainers(spec), VisitLabel, BadLabel);
    FlatMapContainers(ContainerVisits(spec, opts), AllContainers(spec), VisitPortStrings, ContainerPortStrings);
  }

  /** hostPortsV1Dot0 */
  method HostPortsV1Dot0(meta: ObjectMeta, spec: PodSpec, opts: Options) returns (r: CheckResult)
    ensures r == HostPortsResult(spec, opts)
  {
    var badContainers := new Violations(opts.withFieldErrors);
    var forbiddenHostPorts: seq<string> := [];
    var visits := VisitContainers(spec, opts);
    for k := 0 to |visits|
      invariant badContainers.Valid() && badContainers.withFieldErrors == opts.withFieldErrors
      invariant badContainers.data == FlatMap(visits[..k], VisitLabel)
      invariant badContainers.errs
             == if opts.withFieldErrors then Some(FlatMap(visits[..k], VisitErrors)) else None
      invariant forbiddenHostPorts == SortedDistinct(FlatMap(visits[..k], VisitPortStrings))
    {
      var container := visits[k].container;
      var pathFn := visits[k].pathFn;
      var valid, errFns;
      valid, errFns, forbiddenHostPorts := ScanPorts(container, pathFn, opts, forbiddenHostPorts);
      VisitStep(visits, k);
      SortedDistinctAppend(FlatMap(visits[..k], VisitPortStrings), PortStrings(container.ports));
      if !valid {
        if opts.withFieldErrors {
          badContainers.Add(container.name, errFns);
        } else {
          badContainers.Add(container.name, []);
        }
      }
    }
    assert visits[..|visits|] == visits;
    VisitedContainers(spec, opts);
    if !badContainers.Empty() {
      r := CheckResult(false, "hostPort",
                       HostPortsDetail(badContainers.Data(), forbiddenHostPorts),
                       badContainers.Errs());
    } else {
      r := AllowedResult;
    }
  }

  // ---------------------------------------------------------------------------
  // What the result means

  /** A pod is allowed iff no port of any init, regular or ephemeral container
      has a non-zero hostPort. */
  lemma HostPortsAllowedIff(spec: PodSpec, opts: Options)
    ensures var all := AllContainers(spec);
      HostPortsResult(spec, opts).allowed <==>
        forall i, j :: 0 <= i < |all| && 0 <= j < |all[i].ports| ==> all[i].ports[j].hostPort == 0
  {
    var all := AllContainers(spec);
    FlatMapEmpty(all, BadLabel);
    assert forall i :: 0 <= i < |all| ==> (BadLabel(all[i]) == [] <==> !BadContainer(all[i]));
  }

  /** The labels are the names of the offending containers: each offending
      container is labelled, and nothing else is. */
  lemma OffendersAreBadContainers(spec: PodSpec, name: string)
    ensures var all := AllContainers(spec);
      name in Offenders(spec) <==> exists i :: 0 <= i < |all| && BadContainer(all[i]) && all[i].name == name
  {
    var all := AllContainers(spec);
    FlatMapMember(all, BadLabel, name);
    assert forall i :: 0 <= i < |all| ==> (name in BadLabel(all[i]) <==> BadContainer(all[i]) && all[i].name == name);
  }

  lemma {:induction false} PortStringsMember(ports: seq<ContainerPort>, s: string)
    ensures s in PortStrings(ports) <==> exists j :: 0 <= j < |ports| && ports[j].hostPort != 0 && s == Itoa(ports[j].hostPort)
  {
    if ports != [] {
      var n := |ports| - 1;
      PortStringsMember(ports[..n], s);
      if exists j :: 0 <= j < |ports| && ports[j].hostPort != 0 && s == Itoa(ports[j].hostPort) {
        var j :| 0 <= j < |ports| && ports[j].hostPort != 0 && s == Itoa(ports[j].hostPort);
        if j < n {
          assert ports[..n][j] == ports[j];
        }
      }
      if s in PortStrings(ports[..n]) {
        var j :| 0 <= j < n && ports[..n][j].hostPort != 0 && s == Itoa(ports[..n][j].hostPort);
        assert ports[..n][j] == ports[j];
      }
    }
  }

  /** The port list of the detail is sorted without repeats and holds exactly
      the rendered non-zero host ports of all containers. */
  lemma ForbiddenPortsListed(spec: PodSpec, s: string)
    ensures StrictlySorted(ForbiddenPorts(spec))
    ensures var all := AllContainers(spec);
      s in ForbiddenPorts(spec) <==>
        exists i, j :: 0 <= i < |all| && 0 <= j < |all[i].ports|
          && all[i].ports[j].hostPort != 0 && s == Itoa(all[i].ports[j].hostPort)
  {
    var all := AllContainers(spec);
    SortedDistinctIsSet(FlatMap(all, ContainerPortStrings));
    assert s in ForbiddenPorts(spec) <==> s in Elems(ForbiddenPorts(spec));
    assert s in FlatMap(all, ContainerPortStrings) <==> s in Elems(FlatMap(all, ContainerPortStrings));
    FlatMapMember(all, ContainerPortStrings, s);
    forall i | 0 <= i < |all| {
      PortStringsMember(all[i].ports, s);
    }
  }

  // ---------------------------------------------------------------------------
  // Field errors, against addresses written out

  /** The expected errors for a port list under container address p: one
      Forbidden error at p.ports[j].hostPort per non-zero port j, carrying
      the port number. */
  function PortErrorsAt(ports: seq<ContainerPort>, p: Path): seq<Error>
  {
    if ports == [] then []
    else
      var n := |ports| - 1;
      PortErrorsAt(ports[..n], p)
      + (if ports[n].hostPort != 0
         then [Error(ErrorTypeForbidden, p + [Child("ports"), Index(n), Child("hostPort")], IntValue(ports[n].hostPort))]
         else [])
  }

  function ContainerErrorsAt(c: Container, p: Path): seq<Error>
  {
    PortErrorsAt(c.ports, p)
  }

  lemma PortErrFnAt(p: Path, n: int, hostPort: int)
    ensures PortErrFn(PathThunk(Some(p)), n, hostPort)
         == ErrThunk(Some(Error(ErrorTypeForbidden, p + [Child("ports"), Index(n), Child("hostPort")], IntValue(hostPort))))
  {
    ChildOfPath(p, "ports");
    ChildOfPath(p + [Child("ports")] + [Index(n)], "hostPort");
    assert p + [Child("ports")] + [Index(n)] + [Child("hostPort")] == p + [Child("ports"), Index(n), Child("hostPort")];
  }

  lemma {:induction false} PortErrorsMatch(ports: seq<ContainerPort>, p: Path)
    ensures Collected(PortErrFns(ports, PathThunk(Some(p)))) == PortErrorsAt(ports, p)
  {
    if ports != [] {
      var n := |ports| - 1;
      var pathFn := PathThunk(Some(p));
      PortErrorsMatch(ports[..n], p);
      var last := if ports[n].hostPort != 0 then [PortErrFn(pathFn, n, ports[n].hostPort)] else [];
      FlatMapAppend(PortErrFns(ports[..n], pathFn), last, Yield);
      if ports[n].hostPort != 0 {
        PortErrFnAt(p, n, ports[n].hostPort);
        assert last[..0] == [];
      }
    }
  }

  /** With field errors on, the error list holds one Forbidden error per
      non-zero host port, at spec.<collection>[i].ports[j].hostPort with the
      port number as bad value, in visit order; without, there is none. */
  lemma HostPortsFieldErrors(spec: PodSpec, opts: Options)
    ensures var r := HostPortsResult(spec, opts);
      !r.allowed && opts.withFieldErrors ==> r.errList == Some(PodFlatMap(spec, ContainerErrorsAt))
    ensures !opts.withFieldErrors ==> HostPortsResult(spec, opts).errList.None?
  {
    if opts.withFieldErrors {
      forall c, p ensures VisitErrors(Visit(c, PathThunk(Some(p)))) == ContainerErrorsAt(c, p) {
        PortErrorsMatch(c.ports, p);
      }
      VisitFlatMap(spec, opts, VisitErrors, ContainerErrorsAt);
    }
  }
}
