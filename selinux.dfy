/**
 * policy/check_seLinuxOptions.go: the SELinux type is limited to a few
 * container types, and no custom user or role may be set.
 *
 * The pod-level options are checked first and labelled "pod"; the containers'
 * options are checked in visit order and the offending containers share one
 * label. A helper closure checks one options record and records, in variables
 * it shares with the rule, which types were bad, whether a user or a role was
 * set, and the deferred field errors.
 */
module SELinux {
  import opened Wrappers
  import opened Field
  import opened Paths
  import opened Violations
  import opened Api
  import opened Visitor
  import opened Seqs
  import opened Strings

  /** CheckSELinuxOptions: baseline, a single version from 1.0. */
  const CheckSELinuxOptions := Check("seLinuxOptions", Baseline, [VersionedCheck(Version(1, 0), SELinuxOptionsBody)])

  /** selinux_allowed_types_1_0, searched in order. */
  const AllowedTypeList: seq<string> := ["", "container_t", "container_init_t", "container_kvm_t"]

  predicate Listed(t: string, list: seq<string>)
  {
    list != [] && (list[0] == t || Listed(t, list[1..]))
  }

  predicate AllowedType(t: string)
  {
    Listed(t, AllowedTypeList)
  }

  predicate ValidOptions(o: SELinuxOptions)
  {
    AllowedType(o.seLinuxType) && |o.user| == 0 && |o.role| == 0
  }

  // ---------------------------------------------------------------------------
  // The errFns one options record produces

  /** forbidden(path).withBadValue(value) */
  function ForbiddenValue(path: PathFn, value: string): ErrFn
  {
    WithBadValue(Forbidden(path), StrValue(value))
  }

  /** pathFn.child("securityContext", "seLinuxOptions", leaf) */
  function OptionPath(pathFn: PathFn, leaf: string): PathFn
  {
    ChildPath(pathFn, "securityContext", ["seLinuxOptions", leaf])
  }

  function TypeErrFns(o: SELinuxOptions, typePath: PathFn): seq<ErrFn>
  {
    if AllowedType(o.seLinuxType) then [] else [ForbiddenValue(typePath, o.seLinuxType)]
  }

  function UserErrFns(o: SELinuxOptions, userPath: PathFn): seq<ErrFn>
  {
    if |o.user| > 0 then [ForbiddenValue(userPath, o.user)] else []
  }

  function RoleErrFns(o: SELinuxOptions, rolePath: PathFn): seq<ErrFn>
  {
    if |o.role| > 0 then [ForbiddenValue(rolePath, o.role)] else []
  }

  /** A bad type, then a set user, then a set role, each at its own path. */
  function FieldErrFns(o: SELinuxOptions, typePath: PathFn, userPath: PathFn, rolePath: PathFn): seq<ErrFn>
  {
    TypeErrFns(o, typePath) + UserErrFns(o, userPath) + RoleErrFns(o, rolePath)
  }

  /** What a container's options add to badContainersErrFns: the paths are
      children of the container's builder, and a nil builder adds nothing. */
  function ContainerErrFns(o: SELinuxOptions, pathFn: PathFn): seq<ErrFn>
  {
    if pathFn.NoPath? then []
    else FieldErrFns(o, OptionPath(pathFn, "type"), OptionPath(pathFn, "user"), OptionPath(pathFn, "role"))
  }

  /** What the pod's options add to badPodErrFns: only with field errors on,
      at the fixed spec.securityContext.seLinuxOptions paths. */
  function PodErrFns(o: SELinuxOptions, withFieldErrors: bool): seq<ErrFn>
  {
    if withFieldErrors then FieldErrFns(o, SELinuxOptionsTypePath, SELinuxOptionsUserPath, SELinuxOptionsRolePath)
    else []
  }

  lemma Concat3<T>(a: seq<T>, x: seq<T>, y: seq<T>, z: seq<T>)
    ensures a + x + y + z == a + (x + y + z)
  {
  }

  /** The variables validSELinuxOptions shares with the rule and updates. */
  class Tally {
    var badContainersErrFns: seq<ErrFn>
    var badPodErrFns: seq<ErrFn>
    /** badTypes, a sets.String: kept sorted without repeats. */
    var badTypes: seq<string>
    var setUser: bool
    var setRole: bool

    constructor ()
      ensures badContainersErrFns == [] && badPodErrFns == [] && badTypes == []
      ensures !setUser && !setRole
    {
      badContainersErrFns := [];
      badPodErrFns := [];
      badTypes := [];
      setUser := false;
      setRole := false;
    }

    /** validSELinuxOptions: whether the options are valid, recording the bad
        type, a set user, a set role and their errFns. */
    method Validate(o: SELinuxOptions, pathFn: PathFn, isPodLevel: bool, withFieldErrors: bool) returns (valid: bool)
      modifies this
      ensures valid == ValidOptions(o)
      ensures badTypes == if AllowedType(o.seLinuxType) then old(badTypes) else Insert(old(badTypes), o.seLinuxType)
      ensures setUser == (old(setUser) || |o.user| > 0)
      ensures setRole == (old(setRole) || |o.role| > 0)
      ensures badContainersErrFns == old(badContainersErrFns) + ContainerErrFns(o, pathFn)
      ensures badPodErrFns
           == old(badPodErrFns) + if pathFn.NoPath? && isPodLevel then PodErrFns(o, withFieldErrors) else []
    {
      var typeValid := CheckType(o, pathFn, isPodLevel, withFieldErrors);
      var userValid := CheckUser(o, pathFn, isPodLevel, withFieldErrors);
      var roleValid := CheckRole(o, pathFn, isPodLevel, withFieldErrors);
      valid := typeValid && userValid && roleValid;
      if pathFn.NoPath? && isPodLevel && withFieldErrors {
        Concat3(old(badPodErrFns), TypeErrFns(o, SELinuxOptionsTypePath),
                UserErrFns(o, SELinuxOptionsUserPath), RoleErrFns(o, SELinuxOptionsRolePath));
      } else {
        assert old(badPodErrFns) + [] == old(badPodErrFns);
      }
      if pathFn.PathThunk? {
        Concat3(old(badContainersErrFns), TypeErrFns(o, OptionPath(pathFn, "type")),
                UserErrFns(o, OptionPath(pathFn, "user")), RoleErrFns(o, OptionPath(pathFn, "role")));
      } else {
        assert old(badContainersErrFns) + [] == old(badContainersErrFns);
      }
    }

    /** The type check of validSELinuxOptions. */
    method CheckType(o: SELinuxOptions, pathFn: PathFn, isPodLevel: bool, withFieldErrors: bool) returns (valid: bool)
      modifies this
      ensures valid == AllowedType(o.seLinuxType)
      ensures badTypes == if valid then old(badTypes) else Insert(old(badTypes), o.seLinuxType)
      ensures setUser == old(setUser) && setRole == old(setRole)
      ensures badContainersErrFns
           == old(badContainersErrFns) + if pathFn.PathThunk? then TypeErrFns(o, OptionPath(pathFn, "type")) else []
      ensures badPodErrFns == old(badPodErrFns)
           + if pathFn.NoPath? && isPodLevel && withFieldErrors then TypeErrFns(o, SELinuxOptionsTypePath) else []
    {
      valid := true;
      if !AllowedType(o.seLinuxType) {
        valid := false;
        badTypes := Insert(badTypes, o.seLinuxType);
        if pathFn.PathThunk? {
          badContainersErrFns := badContainersErrFns + [ForbiddenValue(OptionPath(pathFn, "type"), o.seLinuxType)];
        } else if isPodLevel && withFieldErrors {
          badPodErrFns := badPodErrFns + [ForbiddenValue(SELinuxOptionsTypePath, o.seLinuxType)];
        }
      }
    }

    /** The user check of validSELinuxOptions. */
    method CheckUser(o: SELinuxOptions, pathFn: PathFn, isPodLevel: bool, withFieldErrors: bool) returns (valid: bool)
      modifies this
      ensures valid == (|o.user| == 0)
      ensures setUser == (old(setUser) || !valid)
      ensures badTypes == old(badTypes) && setRole == old(setRole)
      ensures badContainersErrFns
           == old(badContainersErrFns) + if pathFn.PathThunk? then UserErrFns(o, OptionPath(pathFn, "user")) else []
      ensures badPodErrFns == old(badPodErrFns)
           + if pathFn.NoPath? && isPodLevel && withFieldErrors then UserErrFns(o, SELinuxOptionsUserPath) else []
    {
      valid := true;
      if |o.user| > 0 {
        valid := false;
        setUser := true;
        if pathFn.PathThunk? {
          badContainersErrFns := badContainersErrFns + [ForbiddenValue(OptionPath(pathFn, "user"), o.user)];
        } else if isPodLevel && withFieldErrors {
          badPodErrFns := badPodErrFns + [ForbiddenValue(SELinuxOptionsUserPath, o.user)];
        }
      }
    }

    /** The role check of validSELinuxOptions. */
    method CheckRole(o: SELinuxOptions, pathFn: PathFn, isPodLevel: bool, withFieldErrors: bool) returns (valid: bool)
      modifies this
      ensures valid == (|o.role| == 0)
      ensures setRole == (old(setRole) || !valid)
      ensures badTypes == old(badTypes) && setUser == old(setUser)
      ensures badContainersErrFns
           == old(badContainersErrFns) + if pathFn.PathThunk? then RoleErrFns(o, OptionPath(pathFn, "role")) else []
      ensures badPodErrFns == old(badPodErrFns)
           + if pathFn.NoPath? && isPodLevel && withFieldErrors then RoleErrFns(o, SELinuxOptionsRolePath) else []
    {
      valid := true;
      if |o.role| > 0 {
        valid := false;
        setRole := true;
        if pathFn.PathThunk? {
          badContainersErrFns := badContainersErrFns + [ForbiddenValue(OptionPath(pathFn, "role"), o.role)];
        } else if isPodLevel && withFieldErrors {
          badPodErrFns := badPodErrFns + [ForbiddenValue(SELinuxOptionsRolePath, o.role)];
        }
      }
    }
  }

  // ---------------------------------------------------------------------------
  // What the rule looks at

  function PodOptions(spec: PodSpec): Option<SELinuxOptions>
  {
    if spec.securityContext.Some? && spec.securityContext.value.seLinuxOptions.Some?
    then spec.securityContext.value.seLinuxOptions
    else None
  }

  function ContainerOptions(c: Container): Option<SELinuxOptions>
  {
    if c.securityContext.Some? then c.securityContext.value.seLinuxOptions else None
  }

  predicate PodBad(spec: PodSpec)
  {
    PodOptions(spec).Some? && !ValidOptions(PodOptions(spec).value)
  }

  predicate ContainerBad(c: Container)
  {
    ContainerOptions(c).Some? && !ValidOptions(ContainerOptions(c).value)
  }

  function BadLabel(c: Container): seq<string>
  {
    if ContainerBad(c) then [c.name] else []
  }

  /** The offending containers' names, in visit order. */
  function BadContainers(spec: PodSpec): seq<string>
  {
    FlatMap(AllContainers(spec), BadLabel)
  }

  /** The disallowed type of a present options record. */
  function TypeOf(o: Option<SELinuxOptions>): seq<string>
  {
    if o.Some? && !AllowedType(o.value.seLinuxType) then [o.value.seLinuxType] else []
  }

  function UserOf(o: Option<SELinuxOptions>): seq<string>
  {
    if o.Some? && |o.value.user| > 0 then [o.value.user] else []
  }

  function RoleOf(o: Option<SELinuxOptions>): seq<string>
  {
    if o.Some? && |o.value.role| > 0 then [o.value.role] else []
  }

  function ContainerType(c: Container): seq<string>
  {
    TypeOf(ContainerOptions(c))
  }

  function ContainerUser(c: Container): seq<string>
  {
    UserOf(ContainerOptions(c))
  }

  function ContainerRole(c: Container): seq<string>
  {
    RoleOf(ContainerOptions(c))
  }

  /** badTypes.List(): every disallowed type, pod first, as a sorted set. */
  function BadTypes(spec: PodSpec): seq<string>
  {
    SortedDistinct(TypeOf(PodOptions(spec)) + FlatMap(AllContainers(spec), ContainerType))
  }

  predicate SetUser(spec: PodSpec)
  {
    UserOf(PodOptions(spec)) != [] || FlatMap(AllContainers(spec), ContainerUser) != []
  }

  predicate SetRole(spec: PodSpec)
  {
    RoleOf(PodOptions(spec)) != [] || FlatMap(AllContainers(spec), ContainerRole) != []
  }

  function ContainersLabel(names: seq<string>): string
  {
    Pluralize("container", "containers", |names|) + " " + JoinQuote(names)
  }

  /** badSetters.Data(): "pod" first when the pod's options are bad, then one
      label naming every offending container. */
  function Setters(spec: PodSpec): seq<string>
  {
    (if PodBad(spec) then ["pod"] else [])
    + (if BadContainers(spec) != [] then [ContainersLabel(BadContainers(spec))] else [])
  }

  /** badData: the bad types, then the user, then the role. */
  function BadData(types: seq<string>, setUser: bool, setRole: bool): seq<string>
  {
    (if |types| > 0 then [Pluralize("type", "types", |types|) + " " + JoinQuote(types)] else [])
    + (if setUser then ["user may not be set"] else [])
    + (if setRole then ["role may not be set"] else [])
  }

  function SELinuxDetail(setters: seq<string>, badData: seq<string>): string
  {
    Join(setters, " and ") + " set forbidden securityContext.seLinuxOptions: " + Join(badData, "; ")
  }

  /** The errors of the pod's options, added under the "pod" label. */
  function PodErrors(spec: PodSpec, opts: Options): seq<Error>
  {
    if PodBad(spec) then Collected(PodErrFns(PodOptions(spec).value, opts.withFieldErrors)) else []
  }

  function VisitErrFns(v: Visit): seq<ErrFn>
  {
    if ContainerOptions(v.container).Some? then ContainerErrFns(ContainerOptions(v.container).value, v.pathFn) else []
  }

  /** The errors of the containers' options, added under the containers' label. */
  function ContainerErrors(spec: PodSpec, opts: Options): seq<Error>
  {
    if BadContainers(spec) != [] then Collected(FlatMap(ContainerVisits(spec, opts), VisitErrFns)) else []
  }

  /** The result for the given labels, reasons and error list: allowed
      exactly when nothing was labelled. */
  function Verdict(setters: seq<string>, badData: seq<string>, errs: Option<seq<Error>>): CheckResult
  {
    if setters == [] then AllowedResult
    else CheckResult(false, "seLinuxOptions", SELinuxDetail(setters, badData), errs)
  }

  /** What seLinuxOptionsV1Dot0 returns. */
  function SELinuxResult(spec: PodSpec, opts: Options): (r: CheckResult)
    ensures r.allowed ==> r == AllowedResult
    ensures !r.allowed ==> r.forbiddenReason == "seLinuxOptions"
    ensures r.errList.Some? <==> !r.allowed && opts.withFieldErrors
  {
    Verdict(Setters(spec), BadData(BadTypes(spec), SetUser(spec), SetRole(spec)),
            if opts.withFieldErrors then Some(PodErrors(spec, opts) + ContainerErrors(spec, opts)) else None)
  }

  // ---------------------------------------------------------------------------
  // The rule

  function VisitLabel(v: Visit): seq<string>
  {
    BadLabel(v.container)
  }

  function VisitType(v: Visit): seq<string>
  {
    ContainerType(v.container)
  }

  function VisitUser(v: Visit): seq<string>
  {
    ContainerUser(v.container)
  }

  function VisitRole(v: Visit): seq<string>
  {
    ContainerRole(v.container)
  }

  /** One more visit: what the k-th container adds to each tally. */
  lemma VisitStep(visits: seq<Visit>, k: nat)
    requires k < |visits|
    ensures FlatMap(visits[..k + 1], VisitLabel) == FlatMap(visits[..k], VisitLabel) + VisitLabel(visits[k])
    ensures FlatMap(visits[..k + 1], VisitUser) == FlatMap(visits[..k], VisitUser) + VisitUser(visits[k])
    ensures FlatMap(visits[..k + 1], VisitRole) == FlatMap(visits[..k], VisitRole) + VisitRole(visits[k])
    ensures FlatMap(visits[..k + 1], VisitErrFns) == FlatMap(visits[..k], VisitErrFns) + VisitErrFns(visits[k])
  {
    FlatMapStep(visits, k, VisitLabel);
    FlatMapStep(visits, k, VisitUser);
    FlatMapStep(visits, k, VisitRole);
    FlatMapStep(visits, k, VisitErrFns);
  }

  /** One more visit: the set of bad types gains the k-th container's, if any. */
  lemma TypeStep(s: seq<string>, visits: seq<Visit>, k: nat)
    requires k < |visits|
    ensures var before := InsertAll(s, FlatMap(visits[..k], VisitType));
      InsertAll(s, FlatMap(visits[..k + 1], VisitType))
      == if VisitType(visits[k]) == [] then before else Insert(before, VisitType(visits[k])[0])
  {
    var prefix := FlatMap(visits[..k], VisitType);
    FlatMapStep(visits, k, VisitType);
    if VisitType(visits[k]) == [] {
      assert prefix + [] == prefix;
    } else {
      var t := VisitType(visits[k])[0];
      assert (prefix + [t])[..|prefix|] == prefix;
    }
  }

  lemma VisitedContainers(spec: PodSpec, opts: Options)
    ensures FlatMap(ContainerVisits(spec, opts), VisitLabel) == BadContainers(spec)
    ensures FlatMap(ContainerVisits(spec, opts), VisitType) == FlatMap(AllContainers(spec), ContainerType)
    ensures FlatMap(ContainerVisits(spec, opts), VisitUser) == FlatMap(AllContainers(spec), ContainerUser)
    ensures FlatMap(ContainerVisits(spec, opts), VisitRole) == FlatMap(AllContainers(spec), ContainerRole)
  {
    VisitOrder(spec, opts);
    var visits, all := ContainerVisits(spec, opts), AllContainers(spec);
    FlatMapContainers(visits, all, VisitLabel, BadLabel);
    FlatMapContainers(visits, all, VisitType, ContainerType);
    FlatMapContainers(visits, all, VisitUser, ContainerUser);
    FlatMapContainers(visits, all, VisitRole, ContainerRole);
  }

  /** The visitor seLinuxOptionsV1Dot0 hands to visitContainers: a
      container's options, if set, go through validSELinuxOptions; the result
      says whether the container is to be named. */
  method ContainerVisitor(tally: Tally, container: Container, pathFn: PathFn, withFieldErrors: bool)
    returns (bad: bool)
    modifies tally
    ensures bad == ContainerBad(container)
    ensures var t := ContainerType(container);
      tally.badTypes == if t == [] then old(tally.badTypes) else Insert(old(tally.badTypes), t[0])
    ensures tally.setUser == (old(tally.setUser) || ContainerUser(container) != [])
    ensures tally.setRole == (old(tally.setRole) || ContainerRole(container) != [])
    ensures tally.badContainersErrFns == old(tally.badContainersErrFns) + VisitErrFns(Visit(container, pathFn))
    ensures tally.badPodErrFns == old(tally.badPodErrFns)
  {
    bad := false;
    if container.securityContext.Some? && container.securityContext.value.seLinuxOptions.Some? {
      var valid := tally.Validate(container.securityContext.value.seLinuxOptions.value, pathFn, false, withFieldErrors);
      bad := !valid;
    } else {
      assert old(tally.badContainersErrFns) + [] == old(tally.badContainersErrFns);
    }
  }

  /** The visitContainers call of seLinuxOptionsV1Dot0: every container's
      options go through validSELinuxOptions, and the invalid ones' names are
      collected in visit order. */
  method CheckContainers(spec: PodSpec, opts: Options, tally: Tally) returns (badContainers: seq<string>)
    modifies tally
    ensures badContainers == BadContainers(spec)
    ensures tally.badTypes == InsertAll(old(tally.badTypes), FlatMap(AllContainers(spec), ContainerType))
    ensures tally.setUser == (old(tally.setUser) || FlatMap(AllContainers(spec), ContainerUser) != [])
    ensures tally.setRole == (old(tally.setRole) || FlatMap(AllContainers(spec), ContainerRole) != [])
    ensures tally.badContainersErrFns
         == old(tally.badContainersErrFns) + FlatMap(ContainerVisits(spec, opts), VisitErrFns)
    ensures tally.badPodErrFns == old(tally.badPodErrFns)
  {
    badContainers := [];
    var visits := VisitContainers(spec, opts);
    for k := 0 to |visits|
      invariant badContainers == FlatMap(visits[..k], VisitLabel)
      invariant tally.badTypes == InsertAll(old(tally.badTypes), FlatMap(visits[..k], VisitType))
      invariant tally.setUser == (old(tally.setUser) || FlatMap(visits[..k], VisitUser) != [])
      invariant tally.setRole == (old(tally.setRole) || FlatMap(visits[..k], VisitRole) != [])
      invariant tally.badContainersErrFns == old(tally.badContainersErrFns) + FlatMap(visits[..k], VisitErrFns)
      invariant tally.badPodErrFns == old(tally.badPodErrFns)
    {
      var container := visits[k].container;
      VisitStep(visits, k);
      TypeStep(old(tally.badTypes), visits, k);
      var bad := ContainerVisitor(tally, container, visits[k].pathFn, opts.withFieldErrors);
      if bad {
        badContainers := badContainers + [container.name];
      }
      SeqAssoc(old(tally.badContainersErrFns), FlatMap(visits[..k], VisitErrFns), VisitErrFns(visits[k]));
    }
    assert visits[..|visits|] == visits;
    VisitedContainers(spec, opts);
  }

  /** The set of bad types, built pod first and then container by container. */
  lemma GatheredTypes(spec: PodSpec)
    ensures InsertAll(TypeOf(PodOptions(spec)), FlatMap(AllContainers(spec), ContainerType)) == BadTypes(spec)
  {
    if TypeOf(PodOptions(spec)) != [] {
      assert TypeOf(PodOptions(spec))[..0] == [];
    }
    SortedDistinctAppend(TypeOf(PodOptions(spec)), FlatMap(AllContainers(spec), ContainerType));
  }

  /** The labels: the pod's, then the containers' label if any container was named. */
  lemma GatheredLabels(spec: PodSpec, podData: seq<string>, badContainers: seq<string>, data: seq<string>)
    requires podData == (if PodBad(spec) then ["pod"] else [])
    requires badContainers == BadContainers(spec)
    requires data == if |badContainers| > 0 then podData + [ContainersLabel(badContainers)] else podData
    ensures data == Setters(spec)
  {
  }

  /** The errors: the pod's, then the containers' if any container was named. */
  lemma GatheredErrors(spec: PodSpec, opts: Options, podErrs: Option<seq<Error>>,
                       badContainers: seq<string>, containerErrFns: seq<ErrFn>, errs: Option<seq<Error>>)
    requires podErrs == if opts.withFieldErrors then Some(PodErrors(spec, opts)) else None
    requires badContainers == BadContainers(spec)
    requires containerErrFns == FlatMap(ContainerVisits(spec, opts), VisitErrFns)
    requires errs == if |badContainers| > 0 && opts.withFieldErrors
                     then Some(podErrs.value + Collected(containerErrFns)) else podErrs
    ensures errs == if opts.withFieldErrors then Some(PodErrors(spec, opts) + ContainerErrors(spec, opts)) else None
  {
    if |badContainers| == 0 {
      assert PodErrors(spec, opts) + ContainerErrors(spec, opts) == PodErrors(spec, opts);
    }
  }

  /** The result, from what the rule has gathered: the pod's label and
      errors, the containers' names and errFns, and the three tallies. */
  lemma Assemble(spec: PodSpec, opts: Options, podData: seq<string>, podErrs: Option<seq<Error>>,
                 badContainers: seq<string>, containerErrFns: seq<ErrFn>,
                 badTypes: seq<string>, setUser: bool, setRole: bool,
                 data: seq<string>, errs: Option<seq<Error>>)
    requires podData == (if PodBad(spec) then ["pod"] else [])
    requires podErrs == if opts.withFieldErrors then Some(PodErrors(spec, opts)) else None
    requires badContainers == BadContainers(spec)
    requires containerErrFns == FlatMap(ContainerVisits(spec, opts), VisitErrFns)
    requires badTypes == InsertAll(TypeOf(PodOptions(spec)), FlatMap(AllContainers(spec), ContainerType))
    requires setUser == (UserOf(PodOptions(spec)) != [] || FlatMap(AllContainers(spec), ContainerUser) != [])
    requires setRole == (RoleOf(PodOptions(spec)) != [] || FlatMap(AllContainers(spec), ContainerRole) != [])
    requires data == if |badContainers| > 0 then podData + [ContainersLabel(badContainers)] else podData
    requires errs == if |badContainers| > 0 && opts.withFieldErrors
                     then Some(podErrs.value + Collected(containerErrFns)) else podErrs
    ensures Verdict(data, BadData(badTypes, setUser, setRole), errs) == SELinuxResult(spec, opts)
  {
    GatheredTypes(spec);
    GatheredLabels(spec, podData, badContainers, data);
    GatheredErrors(spec, opts, podErrs, badContainers, containerErrFns, errs);
  }

  /** validSELinuxOptions on the pod's options, labelled "pod" when they fail. */
  method CheckPodOptions(o: SELinuxOptions, tally: Tally, badSetters: Violations)
    requires badSetters.Valid() && badSetters.data == []
    requires badSetters.errs == if badSetters.withFieldErrors then Some([]) else None
    requires tally.badContainersErrFns == [] && tally.badPodErrFns == [] && tally.badTypes == []
    requires !tally.setUser && !tally.setRole
    modifies tally, badSetters
    ensures badSetters.Valid()
    ensures badSetters.data == if ValidOptions(o) then [] else ["pod"]
    ensures badSetters.errs == if !badSetters.withFieldErrors then None
      else if ValidOptions(o) then Some([]) else Some(Collected(PodErrFns(o, true)))
    ensures tally.badContainersErrFns == [] && tally.badPodErrFns == PodErrFns(o, badSetters.withFieldErrors)
    ensures tally.badTypes == TypeOf(Some(o))
    ensures tally.setUser == (UserOf(Some(o)) != []) && tally.setRole == (RoleOf(Some(o)) != [])
  {
    var valid := tally.Validate(o, NoPath, true, badSetters.withFieldErrors);
    assert tally.badPodErrFns == PodErrFns(o, badSetters.withFieldErrors);
    if !valid {
      badSetters.Add("pod", tally.badPodErrFns);
      assert [] + Collected(tally.badPodErrFns) == Collected(tally.badPodErrFns);
    }
  }

  /** The pod-level step of seLinuxOptionsV1Dot0: the pod's options, if
      set, go through validSELinuxOptions first and are labelled "pod". */
  method CheckPod(spec: PodSpec, opts: Options, tally: Tally, badSetters: Violations)
    requires badSetters.Valid() && badSetters.withFieldErrors == opts.withFieldErrors
    requires badSetters.data == [] && badSetters.errs == if opts.withFieldErrors then Some([]) else None
    requires tally.badContainersErrFns == [] && tally.badPodErrFns == [] && tally.badTypes == []
    requires !tally.setUser && !tally.setRole
    modifies tally, badSetters
    ensures badSetters.Valid() && badSetters.withFieldErrors == opts.withFieldErrors
    ensures badSetters.data == if PodBad(spec) then ["pod"] else []
    ensures badSetters.errs == if opts.withFieldErrors then Some(PodErrors(spec, opts)) else None
    ensures tally.badContainersErrFns == []
    ensures tally.badPodErrFns == if PodOptions(spec).Some? then PodErrFns(PodOptions(spec).value, opts.withFieldErrors) else []
    ensures tally.badTypes == TypeOf(PodOptions(spec))
    ensures tally.setUser == (UserOf(PodOptions(spec)) != []) && tally.setRole == (RoleOf(PodOptions(spec)) != [])
  {
    if spec.securityContext.Some? && spec.securityContext.value.seLinuxOptions.Some? {
      CheckPodOptions(spec.securityContext.value.seLinuxOptions.value, tally, badSetters);
    }
  }

  /** badData, built from the tallies. */
  method Reasons(badTypes: seq<string>, setUser: bool, setRole: bool) returns (badData: seq<string>)
    ensures badData == BadData(badTypes, setUser, setRole)
  {
    badData := [];
    if |badTypes| > 0 {
      badData := badData + [Pluralize("type", "types", |badTypes|) + " " + JoinQuote(badTypes)];
    }
    if setUser {
      badData := badData + ["user may not be set"];
    }
    if setRole {
      badData := badData + ["role may not be set"];
    }
  }

  /** The last step of seLinuxOptionsV1Dot0: allowed when nothing was
      labelled, otherwise denied with the labels, the reasons and the errors. */
  method Conclude(badSetters: Violations, tally: Tally) returns (r: CheckResult)
    requires badSetters.Valid()
    ensures r == Verdict(badSetters.data, BadData(tally.badTypes, tally.setUser, tally.setRole), badSetters.errs)
  {
    if !badSetters.Empty() {
      var badData := Reasons(tally.badTypes, tally.setUser, tally.setRole);
      r := CheckResult(false, "seLinuxOptions", SELinuxDetail(badSetters.Data(), badData), badSetters.Errs());
    } else {
      r := AllowedResult;
    }
  }

  /** The containers' label, added only when some container was named. */
  method AddContainers(badSetters: Violations, badContainers: seq<string>, errFns: seq<ErrFn>)
    requires badSetters.Valid()
    modifies badSetters
    ensures badSetters.Valid()
    ensures badSetters.data
         == if |badContainers| > 0 then old(badSetters.data) + [ContainersLabel(badContainers)] else old(badSetters.data)
    ensures badSetters.errs
         == if |badContainers| > 0 && badSetters.withFieldErrors
            then Some(old(badSetters.errs).value + Collected(errFns)) else old(badSetters.errs)
  {
    if |badContainers| > 0 {
      badSetters.Add(ContainersLabel(badContainers), errFns);
    }
  }

  /** seLinuxOptionsV1Dot0 */
  method SELinuxOptionsV1Dot0(meta: ObjectMeta, spec: PodSpec, opts: Options) returns (r: CheckResult)
    ensures r == SELinuxResult(spec, opts)
  {
    var badSetters := new Violations(opts.withFieldErrors);
    var tally := new Tally();
    CheckPod(spec, opts, tally, badSetters);
    ghost var podData, podErrs := badSetters.data, badSetters.errs;
    var badContainers := CheckContainers(spec, opts, tally);
    AddContainers(badSetters, badContainers, tally.badContainersErrFns);
    Assemble(spec, opts, podData, podErrs, badContainers, tally.badContainersErrFns,
             tally.badTypes, tally.setUser, tally.setRole, badSetters.data, badSetters.errs);
    r := Conclude(badSetters, tally);
  }
}
