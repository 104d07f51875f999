/**
 * policy/check_procMount.go: containers must keep the default /proc masks.
 *
 * A container offends when its security context sets procMount to anything
 * but "Default"; an absent security context or an unset procMount is fine.
 * Offending containers are labelled by name, and the offending values are
 * gathered into one sorted set for the detail.
 */
module ProcMount {
  import opened Wrappers
  import opened Field
  import opened Paths
  import opened Violations
  import opened Api
  import opened Visitor
  import opened Seqs
  import opened Strings

  /** CheckProcMount: baseline, a single version from 1.0. */
  const CheckProcMount := Check("procMount", Baseline, [VersionedCheck(Version(1, 0), ProcMountBody)])

  /** corev1.DefaultProcMount */
  const DefaultProcMount := "Default"

  predicate Offends(c: Container)
  {
    && c.securityContext.Some?
    && c.securityContext.value.procMount.Some?
    && c.securityContext.value.procMount.value != DefaultProcMount
  }

  function ProcMountOf(c: Container): string
    requires Offends(c)
  {
    c.securityContext.value.procMount.value
  }

  function BadLabel(c: Container): seq<string>
  {
    if Offends(c) then [c.name] else []
  }

  function BadValue(c: Container): seq<string>
  {
    if Offends(c) then [ProcMountOf(c)] else []
  }

  /** forbidden(pathFn.child("securityContext", "procMount")).withBadValue(value) */
  function ProcMountErrFn(pathFn: PathFn, value: string): ErrFn
  {
    WithBadValue(Forbidden(ChildPath(pathFn, "securityContext", ["procMount"])), StrValue(value))
  }

  function VisitLabel(v: Visit): seq<string>
  {
    BadLabel(v.container)
  }

  function VisitValue(v: Visit): seq<string>
  {
    BadValue(v.container)
  }

  /** The field errors one visit adds with field errors on. */
  function VisitErrors(v: Visit): seq<Error>
  {
    if Offends(v.container) then Collected([ProcMountErrFn(v.pathFn, ProcMountOf(v.container))]) else []
  }

  function Offenders(spec: PodSpec): seq<string>
  {
    FlatMap(AllContainers(spec), BadLabel)
  }

  /** forbiddenProcMountTypes.List() */
  function ForbiddenTypes(spec: PodSpec): seq<string>
  {
    SortedDistinct(FlatMap(AllContainers(spec), BadValue))
  }

  function ProcMountDetail(labels: seq<string>, types: seq<string>): string
  {
    Pluralize("container", "containers", |labels|) + " " + JoinQuote(labels)
    + " must not set securityContext.procMount to " + JoinQuote(types)
  }

  /** What procMountV1Dot0 returns. */
  function ProcMountResult(spec: PodSpec, opts: Options): (r: CheckResult)
    ensures r.allowed ==> r == AllowedResult
    ensures !r.allowed ==> r.forbiddenReason == "procMount"
    ensures r.errList.Some? <==> !r.allowed && opts.withFieldErrors
  {
    if Offenders(spec) == [] then AllowedResult
    else
      CheckResult(false, "procMount",
                  ProcMountDetail(Offenders(spec), ForbiddenTypes(spec)),
                  if opts.withFieldErrors then Some(FlatMap(ContainerVisits(spec, opts), VisitErrors)) else None)
  }

  /** One more visit: what the k-th container adds. */
  lemma VisitStep(visits: seq<Visit>, k: nat)
    requires k < |visits|
    ensures FlatMap(visits[..k + 1], VisitLabel) == FlatMap(visits[..k], VisitLabel) + BadLabel(visits[k].container)
    ensures FlatMap(visits[..k + 1], VisitValue) == FlatMap(visits[..k], VisitValue) + BadValue(visits[k].container)
    ensures FlatMap(visits[..k + 1], VisitErrors) == FlatMap(visits[..k], VisitErrors) + VisitErrors(visits[k])
  {
    FlatMapStep(visits, k, VisitLabel);
    FlatMapStep(visits, k, VisitValue);
    FlatMapStep(visits, k, VisitErrors);
  }

  /** A container that does not offend adds nothing. */
  lemma Unchanged(visits: seq<Visit>, k: nat)
    requires k < |visits| && !Offends(visits[k].container)
    ensures FlatMap(visits[..k + 1], VisitLabel) == FlatMap(visits[..k], VisitLabel)
    ensures FlatMap(visits[..k + 1], VisitValue) == FlatMap(visits[..k], VisitValue)
    ensures FlatMap(visits[..k + 1], VisitErrors) == FlatMap(visits[..k], VisitErrors)
  {
    VisitStep(visits, k);
    assert FlatMap(visits[..k], VisitLabel) + [] == FlatMap(visits[..k], VisitLabel);
    assert FlatMap(visits[..k], VisitValue) + [] == FlatMap(visits[..k], VisitValue);
    assert FlatMap(visits[..k], VisitErrors) + [] == FlatMap(visits[..k], VisitErrors);
  }

  lemma VisitedContainers(spec: PodSpec, opts: Options)
    ensures FlatMap(ContainerVisits(spec, opts), VisitLabel) == Offenders(spec)
    ensures SortedDistinct(FlatMap(ContainerVisits(spec, opts), VisitValue)) == ForbiddenTypes(spec)
  {
    VisitOrder(spec, opts);
    FlatMapContainers(ContainerVisits(spec, opts), AllContainers(spec), VisitLabel, BadLabel);
    FlatMapContainers(ContainerVisits(spec, opts), AllContainers(spec), VisitValue, BadValue);
  }

  /** procMountV1Dot0 */
  method ProcMountV1Dot0(meta: ObjectMeta, spec: PodSpec, opts: Options) returns (r: CheckResult)
    ensures r == ProcMountResult(spec, opts)
  {
    var badContainers := new Violations(opts.withFieldErrors);
    var forbiddenProcMountTypes: seq<string> := [];
    var visits := VisitContainers(spec, opts);
    for k := 0 to |visits|
      invariant badContainers.Valid() && badContainers.withFieldErrors == opts.withFieldErrors
      invariant badContainers.data == FlatMap(visits[..k], VisitLabel)
      invariant badContainers.errs
             == if opts.withFieldErrors then Some(FlatMap(visits[..k], VisitErrors)) else None
      invariant forbiddenProcMountTypes == SortedDistinct(FlatMap(visits[..k], VisitValue))
    {
      var container := visits[k].container;
      var pathFn := visits[k].pathFn;
      VisitStep(visits, k);
      if container.securityContext.Some? && container.securityContext.value.procMount.Some? {
        var procMount := container.securityContext.value.procMount.value;
        if procMount != DefaultProcMount {
          assert Offends(container) && ProcMountOf(container) == procMount;
          if opts.withFieldErrors {
            badContainers.Add(container.name, [ProcMountErrFn(pathFn, procMount)]);
          } else {
            badContainers.Add(container.name, []);
          }
          SortedDistinctSnoc(FlatMap(visits[..k], VisitValue), procMount);
          forbiddenProcMountTypes := Insert(forbiddenProcMountTypes, procMount);
        } else {
          Unchanged(visits, k);
        }
      } else {
        Unchanged(visits, k);
      }
    }
    assert visits[..|visits|] == visits;
    VisitedContainers(spec, opts);
    if !badContainers.Empty() {
      r := CheckResult(false, "procMount",
                       ProcMountDetail(badContainers.Data(), forbiddenProcMountTypes),
                       badContainers.Errs());
    } else {
      r := AllowedResult;
    }
  }

  // ---------------------------------------------------------------------------
  // What the result means

  /** A pod is allowed iff every container leaves its security context unset,
      leaves procMount unset, or sets it to "Default". */
  lemma ProcMountAllowedIff(spec: PodSpec, opts: Options)
    ensures var all := AllContainers(spec);
      ProcMountResult(spec, opts).allowed <==>
        forall i :: 0 <= i < |all| ==>
          || all[i].securityContext.None?
          || all[i].securityContext.value.procMount.None?
          || all[i].securityContext.value.procMount.value == "Default"
  {
    var all := AllContainers(spec);
    FlatMapEmpty(all, BadLabel);
    assert forall i :: 0 <= i < |all| ==> (BadLabel(all[i]) == [] <==> !Offends(all[i]));
  }

  /** Each offending container is labelled, and nothing else is. */
  lemma OffendersAreBadContainers(spec: PodSpec, name: string)
    ensures var all := AllContainers(spec);
      name in Offenders(spec) <==> exists i :: 0 <= i < |all| && Offends(all[i]) && all[i].name == name
  {
    var all := AllContainers(spec);
    FlatMapMember(all, BadLabel, name);
    assert forall i :: 0 <= i < |all| ==> (name in BadLabel(all[i]) <==> Offends(all[i]) && all[i].name == name);
  }

  /** The values in the detail are sorted without repeats and are exactly the
      non-default procMount values set by some container. */
  lemma ForbiddenTypesListed(spec: PodSpec, s: string)
    ensures StrictlySorted(ForbiddenTypes(spec))
    ensures var all := AllContainers(spec);
      s in ForbiddenTypes(spec) <==> exists i :: 0 <= i < |all| && Offends(all[i]) && ProcMountOf(all[i]) == s
  {
    var all := AllContainers(spec);
    SortedDistinctIsSet(FlatMap(all, BadValue));
    assert s in ForbiddenTypes(spec) <==> s in Elems(ForbiddenTypes(spec));
    assert s in FlatMap(all, BadValue) <==> s in Elems(FlatMap(all, BadValue));
    FlatMapMember(all, BadValue, s);
    assert forall i :: 0 <= i < |all| ==> (s in BadValue(all[i]) <==> Offends(all[i]) && ProcMountOf(all[i]) == s);
  }

  // ---------------------------------------------------------------------------
  // Field errors, against addresses written out

  /** One Forbidden error at <container>.securityContext.procMount carrying the value. */
  function ContainerErrorsAt(c: Container, p: Path): seq<Error>
  {
    if Offends(c)
    then [Error(ErrorTypeForbidden, p + [Child("securityContext"), Child("procMount")], StrValue(ProcMountOf(c)))]
    else []
  }

  lemma ProcMountErrFnAt(p: Path, value: string)
    ensures ProcMountErrFn(PathThunk(Some(p)), value)
         == ErrThunk(Some(Error(ErrorTypeForbidden, p + [Child("securityContext"), Child("procMount")], StrValue(value))))
  {
    assert ChildSegments(["procMount"]) == [Child("procMount")];
    assert NewPath("securityContext", ["procMount"]) == [Child("securityContext"), Child("procMount")];
  }

  /** With field errors on, the error list holds one Forbidden error per
      offending container, at spec.<collection>[i].securityContext.procMount
      with the value set, in visit order; without, there is none. */
  lemma ProcMountFieldErrors(spec: PodSpec, opts: Options)
    ensures var r := ProcMountResult(spec, opts);
      !r.allowed && opts.withFieldErrors ==> r.errList == Some(PodFlatMap(spec, ContainerErrorsAt))
    ensures !opts.withFieldErrors ==> ProcMountResult(spec, opts).errList.None?
  {
    if opts.withFieldErrors {
      forall c, p ensures VisitErrors(Visit(c, PathThunk(Some(p)))) == ContainerErrorsAt(c, p) {
        if Offends(c) {
          var e := ProcMountErrFn(PathThunk(Some(p)), ProcMountOf(c));
          ProcMountErrFnAt(p, ProcMountOf(c));
          assert Collected([e]) == Collected([e][..0]) + Yield(e);
        }
      }
      VisitFlatMap(spec, opts, VisitErrors, ContainerErrorsAt);
    }
  }

  // ---------------------------------------------------------------------------
  // The pod of policy/check_procMount_test.go

  function TestContainer(name: string, sc: Option<SecurityContext>): Container
  {
    Container(name, [], sc)
  }

  function TestProcMount(value: Option<string>): Option<SecurityContext>
  {
    Some(SecurityContext(None, value, None))
  }

  /** Containers a to e: no security context, an empty one, "Default",
      "Unmasked" and "other". */
  const TestPod := PodSpec([], [
      TestContainer("a", None),
      TestContainer("b", TestProcMount(None)),
      TestContainer("c", TestProcMount(Some("Default"))),
      TestContainer("d", TestProcMount(Some("Unmasked"))),
      TestContainer("e", TestProcMount(Some("other")))
    ], [], None)

  /** Only containers d and e offend, with "Unmasked" and "other". */
  lemma TestPodTallies()
    ensures Offenders(TestPod) == ["d", "e"]
    ensures FlatMap(AllContainers(TestPod), BadValue) == ["Unmasked", "other"]
  {
    var cs := TestPod.containers;
    assert AllContainers(TestPod) == cs;
    var p3, p4 := cs[..3], cs[..4];
    assert p4[..3] == p3 && cs[..4] == p4;
    assert !Offends(cs[0]) && !Offends(cs[1]) && !Offends(cs[2]) && Offends(cs[3]) && Offends(cs[4]);
    FlatMapEmpty(p3, BadLabel);
    FlatMapEmpty(p3, BadValue);
  }

  lemma TestPodTypes()
    ensures ForbiddenTypes(TestPod) == ["Unmasked", "other"]
  {
    TestPodTallies();
    assert ["Unmasked", "other"][..1] == ["Unmasked"];
    assert SortedDistinct(["Unmasked"]) == ["Unmasked"];
    assert Less("Unmasked", "other");
  }

  /** The detail for labels d, e and values "Unmasked", "other", as text. */
  lemma TestPodDetailText()
    ensures ProcMountDetail(["d", "e"], ["Unmasked", "other"])
         == "containers \"d\", \"e\"" + " must not set securityContext.procMount to " + "\"Unmasked\", \"other\""
  {
    JoinQuoteTwo("d", "e");
    JoinQuoteTwo("Unmasked", "other");
  }

  /** The pod is denied: containers d and e are named, in order, and their
      values are listed sorted, giving the detail the package's test expects. */
  lemma ProcMountTestPod()
    ensures ProcMountResult(TestPod, Options(false))
         == CheckResult(false, "procMount", ProcMountDetail(["d", "e"], ["Unmasked", "other"]), None)
    ensures ProcMountResult(TestPod, Options(false)).forbiddenDetail
         == "containers \"d\", \"e\"" + " must not set securityContext.procMount to " + "\"Unmasked\", \"other\""
  {
    TestPodTallies();
    TestPodTypes();
    TestPodDetailText();
  }

  const TestPathD: Path := [Child("spec"), Child("containers"), Index(3), Child("securityContext"), Child("procMount")]
  const TestPathE: Path := [Child("spec"), Child("containers"), Index(4), Child("securityContext"), Child("procMount")]

  /** The errors of containers d and e, at their addresses. */
  lemma TestPodErrorsAt()
    ensures IndexedFlatMap(TestPod.containers, ContainersAddress, ContainerErrorsAt)
         == [Error(ErrorTypeForbidden, TestPathD, StrValue("Unmasked")), Error(ErrorTypeForbidden, TestPathE, StrValue("other"))]
  {
    var cs := TestPod.containers;
    var g := ContainerErrorsAt;
    assert cs[..1][..0] == [] && cs[..2][..1] == cs[..1] && cs[..3][..2] == cs[..2];
    assert cs[..4][..3] == cs[..3] && cs[..4] == cs[..4];
    assert !Offends(cs[0]) && !Offends(cs[1]) && !Offends(cs[2]);
    assert IndexedFlatMap(cs[..1], ContainersAddress, g) == [];
    assert IndexedFlatMap(cs[..2], ContainersAddress, g) == [];
    assert IndexedFlatMap(cs[..3], ContainersAddress, g) == [];
    assert ContainersAddress + [Index(3)] + [Child("securityContext"), Child("procMount")] == TestPathD;
    assert ContainersAddress + [Index(4)] + [Child("securityContext"), Child("procMount")] == TestPathE;
    assert g(cs[3], ContainersAddress + [Index(3)]) == [Error(ErrorTypeForbidden, TestPathD, StrValue("Unmasked"))];
    assert g(cs[4], ContainersAddress + [Index(4)]) == [Error(ErrorTypeForbidden, TestPathE, StrValue("other"))];
  }

  /** With field errors the two errors sit at spec.containers[3] and
      spec.containers[4], carrying the values set. */
  lemma ProcMountTestPodFieldErrors()
    ensures ProcMountResult(TestPod, Options(true)).errList
         == Some([Error(ErrorTypeForbidden, TestPathD, StrValue("Unmasked")), Error(ErrorTypeForbidden, TestPathE, StrValue("other"))])
  {
    var r := ProcMountResult(TestPod, Options(true));
    TestPodTallies();
    assert !r.allowed;
    ProcMountFieldErrors(TestPod, Options(true));
    ContainersOnly(TestPod, ContainerErrorsAt);
    TestPodErrorsAt();
  }
}
