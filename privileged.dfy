/**
 * policy/check_privileged.go: no container may run privileged.
 *
 * A container offends when its security context sets privileged to true; an
 * absent security context, an unset flag or false is fine. Offending
 * containers are labelled by name.
 */
module Privileged {
  import opened Wrappers
  import opened Field
  import opened Paths
  import opened Violations
  import opened Api
  import opened Visitor
  import opened Seqs
  import opened Strings

  /** CheckPrivileged: baseline, a single version from 1.0. */
  const CheckPrivileged := Check("privileged", Baseline, [VersionedCheck(Version(1, 0), PrivilegedBody)])

  predicate Offends(c: Container)
  {
    && c.securityContext.Some?
    && c.securityContext.value.privileged.Some?
    && c.securityContext.value.privileged.value
  }

  function BadLabel(c: Container): seq<string>
  {
    if Offends(c) then [c.name] else []
  }

  /** forbidden(pathFn.child("securityContext", "privileged")).withBadValue(true) */
  function PrivilegedErrFn(pathFn: PathFn): ErrFn
  {
    WithBadValue(Forbidden(ChildPath(pathFn, "securityContext", ["privileged"])), BoolValue(true))
  }

  function VisitLabel(v: Visit): seq<string>
  {
    BadLabel(v.container)
  }

  /** The field errors one visit adds with field errors on. */
  function VisitErrors(v: Visit): seq<Error>
  {
    if Offends(v.container) then Collected([PrivilegedErrFn(v.pathFn)]) else []
  }

  function Offenders(spec: PodSpec): seq<string>
  {
    FlatMap(AllContainers(spec), BadLabel)
  }

  function PrivilegedDetail(labels: seq<string>): string
  {
    Pluralize("container", "containers", |labels|) + " " + JoinQuote(labels)
    + " must not set securityContext.privileged=true"
  }

  /** What privilegedV1Dot0 returns. */
  function PrivilegedResult(spec: PodSpec, opts: Options): (r: CheckResult)
    ensures r.allowed ==> r == AllowedResult
    ensures !r.allowed ==> r.forbiddenReason == "privileged"
    ensures r.errList.Some? <==> !r.allowed && opts.withFieldErrors
  {
    if Offenders(spec) == [] then AllowedResult
    else
      CheckResult(false, "privileged", PrivilegedDetail(Offenders(spec)),
                  if opts.withFieldErrors then Some(FlatMap(ContainerVisits(spec, opts), VisitErrors)) else None)
  }

  /** One more visit: what the k-th container adds. */
  lemma VisitStep(visits: seq<Visit>, k: nat)
    requires k < |visits|
    ensures FlatMap(visits[..k + 1], VisitLabel) == FlatMap(visits[..k], VisitLabel) + BadLabel(visits[k].container)
    ensures FlatMap(visits[..k + 1], VisitErrors) == FlatMap(visits[..k], VisitErrors) + VisitErrors(visits[k])
  {
    FlatMapStep(visits, k, VisitLabel);
    FlatMapStep(visits, k, VisitErrors);
  }

  /** A container that does not offend adds nothing. */
  lemma Unchanged(visits: seq<Visit>, k: nat)
    requires k < |visits| && !Offends(visits[k].container)
    ensures FlatMap(visits[..k + 1], VisitLabel) == FlatMap(visits[..k], VisitLabel)
    ensures FlatMap(visits[..k + 1], VisitErrors) == FlatMap(visits[..k], VisitErrors)
  {
    VisitStep(visits, k);
    assert FlatMap(visits[..k], VisitLabel) + [] == FlatMap(visits[..k], VisitLabel);
    assert FlatMap(visits[..k], VisitErrors) + [] == FlatMap(visits[..k], VisitErrors);
  }

  lemma VisitedContainers(spec: PodSpec, opts: Options)
    ensures FlatMap(ContainerVisits(spec, opts), VisitLabel) == Offenders(spec)
  {
    VisitOrder(spec, opts);
    FlatMapContainers(ContainerVisits(spec, opts), AllContainers(spec), VisitLabel, BadLabel);
  }

  /** privilegedV1Dot0 */
  method PrivilegedV1Dot0(meta: ObjectMeta, spec: PodSpec, opts: Options) returns (r: CheckResult)
    ensures r == PrivilegedResult(spec, opts)
  {
    var badContainers := new Violations(opts.withFieldErrors);
    var visits := VisitContainers(spec, opts);
    for k := 0 to |visits|
      invariant badContainers.Valid() && badContainers.withFieldErrors == opts.withFieldErrors
      invariant badContainers.data == FlatMap(visits[..k], VisitLabel)
      invariant badContainers.errs
             == if opts.withFieldErrors then Some(FlatMap(visits[..k], VisitErrors)) else None
    {
      var container := visits[k].container;
      var pathFn := visits[k].pathFn;
      VisitStep(visits, k);
      if container.securityContext.Some? && container.securityContext.value.privileged.Some?
         && container.securityContext.value.privileged.value
      {
        assert Offends(container);
        if opts.withFieldErrors {
          badContainers.Add(container.name, [PrivilegedErrFn(pathFn)]);
        } else {
          badContainers.Add(container.name, []);
        }
      } else {
        Unchanged(visits, k);
      }
    }
    assert visits[..|visits|] == visits;
    VisitedContainers(spec, opts);
    if !badContainers.Empty() {
      r := CheckResult(false, "privileged", PrivilegedDetail(badContainers.Data()), badContainers.Errs());
    } else {
      r := AllowedResult;
    }
  }

  // ---------------------------------------------------------------------------
  // What the result means

  /** A pod is allowed iff no container sets privileged to true. */
  lemma PrivilegedAllowedIff(spec: PodSpec, opts: Options)
    ensures var all := AllContainers(spec);
      PrivilegedResult(spec, opts).allowed <==>
        forall i :: 0 <= i < |all| ==>
          || all[i].securityContext.None?
          || all[i].securityContext.value.privileged.None?
          || !all[i].securityContext.value.privileged.value
  {
    var all := AllContainers(spec);
    FlatMapEmpty(all, BadLabel);
    assert forall i :: 0 <= i < |all| ==> (BadLabel(all[i]) == [] <==> !Offends(all[i]));
  }

  /** Each privileged container is labelled, and nothing else is. */
  lemma OffendersAreBadContainers(spec: PodSpec, name: string)
    ensures var all := AllContainers(spec);
      name in Offenders(spec) <==> exists i :: 0 <= i < |all| && Offends(all[i]) && all[i].name == name
  {
    var all := AllContainers(spec);
    FlatMapMember(all, BadLabel, name);
    assert forall i :: 0 <= i < |all| ==> (name in BadLabel(all[i]) <==> Offends(all[i]) && all[i].name == name);
  }

  // ---------------------------------------------------------------------------
  // Field errors, against addresses written out

  /** One Forbidden error at <container>.securityContext.privileged carrying true. */
  function ContainerErrorsAt(c: Container, p: Path): seq<Error>
  {
    if Offends(c)
    then [Error(ErrorTypeForbidden, p + [Child("securityContext"), Child("privileged")], BoolValue(true))]
    else []
  }

  lemma PrivilegedErrFnAt(p: Path)
    ensures PrivilegedErrFn(PathThunk(Some(p)))
         == ErrThunk(Some(Error(ErrorTypeForbidden, p + [Child("securityContext"), Child("privileged")], BoolValue(true))))
  {
    assert ChildSegments(["privileged"]) == [Child("privileged")];
    assert NewPath("securityContext", ["privileged"]) == [Child("securityContext"), Child("privileged")];
  }

  /** With field errors on, the error list holds one Forbidden error per
      privileged container, at spec.<collection>[i].securityContext.privileged
      with the value true, in visit order; without, there is none. */
  lemma PrivilegedFieldErrors(spec: PodSpec, opts: Options)
    ensures var r := PrivilegedResult(spec, opts);
      !r.allowed && opts.withFieldErrors ==> r.errList == Some(PodFlatMap(spec, ContainerErrorsAt))
    ensures !opts.withFieldErrors ==> PrivilegedResult(spec, opts).errList.None?
  {
    if opts.withFieldErrors {
      forall c, p ensures VisitErrors(Visit(c, PathThunk(Some(p)))) == ContainerErrorsAt(c, p) {
        if Offends(c) {
          var e := PrivilegedErrFn(PathThunk(Some(p)));
          PrivilegedErrFnAt(p);
          assert Collected([e]) == Collected([e][..0]) + Yield(e);
        }
      }
      VisitFlatMap(spec, opts, VisitErrors, ContainerErrorsAt);
    }
  }
}
