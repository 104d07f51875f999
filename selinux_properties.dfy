/**
 * What check_seLinuxOptions.go's result means, stated over the pod: when it
 * allows, whom it names, which reasons it gives and where its field errors
 * point.
 */
module SELinuxProperties {
  import opened Wrappers
  import opened Field
  import opened Paths
  import opened Violations
  import opened Api
  import opened Visitor
  import opened Seqs
  import opened Strings
  import opened SELinux

  /** The allowed types are exactly the empty type and the three container types. */
  lemma AllowedTypes(t: string)
    ensures AllowedType(t) <==> t == "" || t == "container_t" || t == "container_init_t" || t == "container_kvm_t"
  {
    var l := AllowedTypeList;
    assert l[0] == "" && l[1] == "container_t" && l[2] == "container_init_t" && l[3] == "container_kvm_t";
    assert Listed(t, l) == (t == l[0] || Listed(t, l[1..]));
    assert Listed(t, l[1..]) == (t == l[1] || Listed(t, l[2..]));
    assert Listed(t, l[2..]) == (t == l[2] || Listed(t, l[3..]));
    assert Listed(t, l[3..]) == (t == l[3] || Listed(t, l[4..]));
    assert l[4..] == [];
  }

  /** Allowed exactly when the pod's options, if set, and every container's
      options, if set, have an allowed type and set neither user nor role. */
  lemma SELinuxAllowedIff(spec: PodSpec, opts: Options)
    ensures var all := AllContainers(spec);
      SELinuxResult(spec, opts).allowed <==>
        && (PodOptions(spec).Some? ==> ValidOptions(PodOptions(spec).value))
        && forall i :: 0 <= i < |all| ==> ContainerOptions(all[i]).Some? ==> ValidOptions(ContainerOptions(all[i]).value)
  {
    var all := AllContainers(spec);
    FlatMapEmpty(all, BadLabel);
    assert forall i :: 0 <= i < |all| ==> (BadLabel(all[i]) == [] <==> !ContainerBad(all[i]));
  }

  /** The containers' label names each container whose options fail, and no other. */
  lemma BadContainersNamed(spec: PodSpec, name: string)
    ensures var all := AllContainers(spec);
      name in BadContainers(spec) <==> exists i :: 0 <= i < |all| && ContainerBad(all[i]) && all[i].name == name
  {
    var all := AllContainers(spec);
    FlatMapMember(all, BadLabel, name);
    assert forall i :: 0 <= i < |all| ==> (name in BadLabel(all[i]) <==> ContainerBad(all[i]) && all[i].name == name);
  }

  /** The bad types are listed sorted and once each: every disallowed type
      set on the pod or on a container, and nothing else. */
  lemma BadTypesListed(spec: PodSpec, t: string)
    ensures StrictlySorted(BadTypes(spec))
    ensures var all := AllContainers(spec);
      t in BadTypes(spec) <==>
        && !AllowedType(t)
        && (|| (PodOptions(spec).Some? && PodOptions(spec).value.seLinuxType == t)
            || exists i :: 0 <= i < |all| && ContainerOptions(all[i]).Some? && ContainerOptions(all[i]).value.seLinuxType == t)
  {
    var all := AllContainers(spec);
    var xs := TypeOf(PodOptions(spec)) + FlatMap(all, ContainerType);
    SortedDistinctIsSet(xs);
    assert t in BadTypes(spec) <==> t in Elems(BadTypes(spec));
    assert t in xs <==> t in Elems(xs);
    FlatMapMember(all, ContainerType, t);
  }

  /** "user may not be set" is given exactly when the pod or a container sets a user. */
  lemma SetUserIff(spec: PodSpec)
    ensures var all := AllContainers(spec);
      SetUser(spec) <==>
        || (PodOptions(spec).Some? && PodOptions(spec).value.user != "")
        || exists i :: 0 <= i < |all| && ContainerOptions(all[i]).Some? && ContainerOptions(all[i]).value.user != ""
  {
    FlatMapEmpty(AllContainers(spec), ContainerUser);
  }

  /** "role may not be set" is given exactly when the pod or a container sets a role. */
  lemma SetRoleIff(spec: PodSpec)
    ensures var all := AllContainers(spec);
      SetRole(spec) <==>
        || (PodOptions(spec).Some? && PodOptions(spec).value.role != "")
        || exists i :: 0 <= i < |all| && ContainerOptions(all[i]).Some? && ContainerOptions(all[i]).value.role != ""
  {
    FlatMapEmpty(AllContainers(spec), ContainerRole);
  }

  /** Options that fail contribute a reason: a bad type, a user or a role. */
  lemma FailingOptionsGiveReason(spec: PodSpec, o: SELinuxOptions)
    requires PodOptions(spec) == Some(o) || exists i :: 0 <= i < |AllContainers(spec)| && ContainerOptions(AllContainers(spec)[i]) == Some(o)
    requires !ValidOptions(o)
    ensures BadData(BadTypes(spec), SetUser(spec), SetRole(spec)) != []
  {
    if !AllowedType(o.seLinuxType) {
      BadTypesListed(spec, o.seLinuxType);
    } else if o.user != "" {
      SetUserIff(spec);
    } else {
      SetRoleIff(spec);
    }
  }

  /** A denial names who set the options and always gives at least one reason. */
  lemma DeniedWithReasons(spec: PodSpec, opts: Options)
    ensures var r := SELinuxResult(spec, opts);
      !r.allowed ==>
        && Setters(spec) != []
        && BadData(BadTypes(spec), SetUser(spec), SetRole(spec)) != []
        && r.forbiddenDetail == SELinuxDetail(Setters(spec), BadData(BadTypes(spec), SetUser(spec), SetRole(spec)))
  {
    if Setters(spec) != [] {
      if PodBad(spec) {
        FailingOptionsGiveReason(spec, PodOptions(spec).value);
      } else {
        var all := AllContainers(spec);
        var name := BadContainers(spec)[0];
        BadContainersNamed(spec, name);
        var i :| 0 <= i < |all| && ContainerBad(all[i]) && all[i].name == name;
        FailingOptionsGiveReason(spec, ContainerOptions(all[i]).value);
      }
    }
  }

  // ---------------------------------------------------------------------------
  // Field errors, against addresses written out

  /** The errors one options record should report when its seLinuxOptions
      sits at `base`: a Forbidden error at base.type carrying a disallowed
      type, at base.user carrying a set user, at base.role carrying a set
      role, in that order. */
  function OptionsErrorsAt(o: SELinuxOptions, base: Path): seq<Error>
  {
    (if AllowedType(o.seLinuxType) then [] else [Error(ErrorTypeForbidden, base + [Child("type")], StrValue(o.seLinuxType))])
    + (if o.user != "" then [Error(ErrorTypeForbidden, base + [Child("user")], StrValue(o.user))] else [])
    + (if o.role != "" then [Error(ErrorTypeForbidden, base + [Child("role")], StrValue(o.role))] else [])
  }

  /** The errors of a container at address p: those of its options, at
      p.securityContext.seLinuxOptions. */
  function ContainerErrorsAt(c: Container, p: Path): seq<Error>
  {
    if ContainerOptions(c).Some?
    then OptionsErrorsAt(ContainerOptions(c).value, p + [Child("securityContext"), Child("seLinuxOptions")])
    else []
  }

  /** The errors of the pod's own options, at spec.securityContext.seLinuxOptions. */
  function PodOptionsErrorsAt(spec: PodSpec): seq<Error>
  {
    if PodOptions(spec).Some? then OptionsErrorsAt(PodOptions(spec).value, SELinuxOptionsPodPath) else []
  }

  /** forbidden(path).withBadValue(v) with a builder yielding q reports one
      Forbidden error at q carrying v. */
  lemma CollectedForbidden(q: Path, v: string)
    ensures Collected([ForbiddenValue(PathThunk(Some(q)), v)]) == [Error(ErrorTypeForbidden, q, StrValue(v))]
  {
    var f := ForbiddenValue(PathThunk(Some(q)), v);
    assert Collected([f]) == Collected([f][..0]) + Yield(f);
  }

  /** Collecting the errFns of one options record whose three builders yield
      base.type, base.user and base.role. */
  lemma CollectedOptions(o: SELinuxOptions, base: Path, typePath: PathFn, userPath: PathFn, rolePath: PathFn)
    requires typePath == PathThunk(Some(base + [Child("type")]))
    requires userPath == PathThunk(Some(base + [Child("user")]))
    requires rolePath == PathThunk(Some(base + [Child("role")]))
    ensures Collected(FieldErrFns(o, typePath, userPath, rolePath)) == OptionsErrorsAt(o, base)
  {
    var t, u, r := TypeErrFns(o, typePath), UserErrFns(o, userPath), RoleErrFns(o, rolePath);
    CollectedAppend(t + u, r);
    CollectedAppend(t, u);
    if !AllowedType(o.seLinuxType) {
      CollectedForbidden(base + [Child("type")], o.seLinuxType);
    }
    if o.user != "" {
      CollectedForbidden(base + [Child("user")], o.user);
    }
    if o.role != "" {
      CollectedForbidden(base + [Child("role")], o.role);
    }
  }

  /** A container builder yielding p gives option builders yielding
      p.securityContext.seLinuxOptions.<leaf>. */
  lemma OptionPathAt(p: Path, leaf: string)
    ensures OptionPath(PathThunk(Some(p)), leaf)
         == PathThunk(Some(p + [Child("securityContext"), Child("seLinuxOptions")] + [Child(leaf)]))
  {
    var n := NewPath("securityContext", ["seLinuxOptions", leaf]);
    assert n == [Child("securityContext"), Child("seLinuxOptions")] + [Child(leaf)];
    SeqAssoc(p, [Child("securityContext"), Child("seLinuxOptions")], [Child(leaf)]);
  }

  /** Over the visits, a container's collected errors are those at its address. */
  lemma VisitErrorsAt(c: Container, p: Path)
    ensures Collected(VisitErrFns(Visit(c, PathThunk(Some(p))))) == ContainerErrorsAt(c, p)
  {
    if ContainerOptions(c).Some? {
      var base := p + [Child("securityContext"), Child("seLinuxOptions")];
      OptionPathAt(p, "type");
      OptionPathAt(p, "user");
      OptionPathAt(p, "role");
      CollectedOptions(ContainerOptions(c).value, base, OptionPath(PathThunk(Some(p)), "type"),
                       OptionPath(PathThunk(Some(p)), "user"), OptionPath(PathThunk(Some(p)), "role"));
    }
  }

  /** The pod's errors: those of its options, when they fail. */
  lemma PodErrorsAt(spec: PodSpec, opts: Options)
    requires opts.withFieldErrors
    ensures PodErrors(spec, opts) == PodOptionsErrorsAt(spec)
  {
    PathConstants();
    if PodOptions(spec).Some? {
      var o := PodOptions(spec).value;
      CollectedOptions(o, SELinuxOptionsPodPath, SELinuxOptionsTypePath, SELinuxOptionsUserPath, SELinuxOptionsRolePath);
      if !PodBad(spec) {
        assert OptionsErrorsAt(o, SELinuxOptionsPodPath) == [];
      }
    }
  }

  /** What one visit's errFns collect. */
  function CollectedVisit(v: Visit): seq<Error>
  {
    Collected(VisitErrFns(v))
  }

  /** When no container is labelled, no visit collects an error. */
  lemma CleanVisits(spec: PodSpec, opts: Options)
    requires BadContainers(spec) == []
    ensures FlatMap(ContainerVisits(spec, opts), CollectedVisit) == []
  {
    var visits := ContainerVisits(spec, opts);
    var all := AllContainers(spec);
    VisitOrder(spec, opts);
    FlatMapEmpty(all, BadLabel);
    forall k | 0 <= k < |visits| ensures CollectedVisit(visits[k]) == [] {
      assert BadLabel(all[k]) == [];
      if ContainerOptions(all[k]).Some? {
        assert ValidOptions(ContainerOptions(all[k]).value);
        assert VisitErrFns(visits[k]) == [];
      }
    }
    FlatMapEmpty(visits, CollectedVisit);
  }

  /** The containers' errors: those of each container's options at its address, in visit order. */
  lemma ContainerErrorsInOrder(spec: PodSpec, opts: Options)
    requires opts.withFieldErrors
    ensures ContainerErrors(spec, opts) == PodFlatMap(spec, ContainerErrorsAt)
  {
    var visits := ContainerVisits(spec, opts);
    CollectedFlatMap(visits, VisitErrFns, CollectedVisit);
    forall c, p ensures CollectedVisit(Visit(c, PathThunk(Some(p)))) == ContainerErrorsAt(c, p) {
      VisitErrorsAt(c, p);
    }
    VisitFlatMap(spec, opts, CollectedVisit, ContainerErrorsAt);
    if BadContainers(spec) == [] {
      CleanVisits(spec, opts);
    }
  }

  /** With field errors on, a denial reports the pod's option errors at
      spec.securityContext.seLinuxOptions, then each container's at
      spec.<collection>[i].securityContext.seLinuxOptions, in visit order;
      without field errors there is no error list. */
  lemma SELinuxFieldErrors(spec: PodSpec, opts: Options)
    ensures var r := SELinuxResult(spec, opts);
      !r.allowed && opts.withFieldErrors ==>
        r.errList == Some(PodOptionsErrorsAt(spec) + PodFlatMap(spec, ContainerErrorsAt))
    ensures !opts.withFieldErrors ==> SELinuxResult(spec, opts).errList.None?
  {
    if opts.withFieldErrors {
      PodErrorsAt(spec, opts);
      ContainerErrorsInOrder(spec, opts);
    }
  }
}
