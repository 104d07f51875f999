/**
 * policy/check_appArmorProfile.go: the container AppArmor annotations may
 * only name the runtime default profile, a localhost profile, or nothing.
 *
 * The pod's annotations are a Go map; here they are the sequence of
 * (key, value) pairs in whichever order the map iteration yields them. The
 * labels are sorted before they are reported, so the detail does not depend
 * on that order; the error list does, and only its multiset is fixed.
 */
module AppArmor {
  import opened Wrappers
  import opened Field
  import opened Paths
  import opened Violations
  import opened Api
  import opened Seqs
  import opened Strings

  /** CheckAppArmorProfile: baseline, a single version from 1.0. */
  const CheckAppArmorProfile := Check("appArmorProfile", Baseline, [VersionedCheck(Version(1, 0), AppArmorProfileBody)])

  /** corev1.AppArmorBetaProfileRuntimeDefault */
  const ProfileRuntimeDefault: string := "runtime/default"
  /** corev1.AppArmorBetaProfileNamePrefix */
  const ProfileNamePrefix: string := "localhost/"
  /** corev1.AppArmorBetaContainerAnnotationKeyPrefix */
  const ContainerAnnotationKeyPrefix: string := "container.apparmor.security.beta.kubernetes.io/"

  /** allowedProfile */
  predicate AllowedProfile(profile: string)
  {
    |profile| == 0 || profile == ProfileRuntimeDefault || HasPrefix(profile, ProfileNamePrefix)
  }

  /** An annotation the rule reports: a container AppArmor key whose
      profile is not allowed. */
  predicate Offends(a: (string, string))
  {
    HasPrefix(a.0, ContainerAnnotationKeyPrefix) && !AllowedProfile(a.1)
  }

  /** fmt.Sprintf("%s=%q", k, v), with plain quote wrapping for %q. */
  function Label(k: string, v: string): string
  {
    k + "=" + Quote(v)
  }

  /** forbidden(annotationsPath.key(k)).withBadValue(v) */
  function AnnotationErrFn(k: string, v: string): ErrFn
  {
    WithBadValue(Forbidden(KeyPath(AnnotationsPath, k)), StrValue(v))
  }

  function OffenderLabel(a: (string, string)): seq<string>
  {
    if Offends(a) then [Label(a.0, a.1)] else []
  }

  /** The error an offending annotation reports: Forbidden at
      metadata.annotations[k], carrying its value. */
  function OffenderError(a: (string, string)): seq<Error>
  {
    if Offends(a) then [Error(ErrorTypeForbidden, AnnotationsAddress + [Key(a.0)], StrValue(a.1))] else []
  }

  /** The labels of the offending annotations, in iteration order. */
  function Labels(meta: ObjectMeta): seq<string>
  {
    FlatMap(meta.annotations, OffenderLabel)
  }

  /** The errors of the offending annotations, in iteration order. */
  function AnnotationErrors(meta: ObjectMeta): seq<Error>
  {
    FlatMap(meta.annotations, OffenderError)
  }

  /** What appArmorProfileV1Dot0 returns. */
  function AppArmorResult(meta: ObjectMeta, opts: Options): (r: CheckResult)
    ensures r.allowed <==> Labels(meta) == []
    ensures r.allowed ==> r == AllowedResult
    ensures !r.allowed ==> r.forbiddenDetail == Join(SortStrings(Labels(meta)), ", ")
    ensures r.errList.Some? <==> !r.allowed && opts.withFieldErrors
  {
    var labels := Labels(meta);
    if labels == [] then AllowedResult
    else
      CheckResult(
        false,
        Pluralize("forbidden AppArmor profile", "forbidden AppArmor profiles", |labels|),
        Join(SortStrings(labels), ", "),
        if opts.withFieldErrors then Some(AnnotationErrors(meta)) else None)
  }

  // ---------------------------------------------------------------------------
  // The rule

  /** The errFn of an offending annotation reports its OffenderError. */
  lemma AnnotationErrFnAt(k: string, v: string)
    ensures Collected([AnnotationErrFn(k, v)]) == [Error(ErrorTypeForbidden, AnnotationsAddress + [Key(k)], StrValue(v))]
  {
    var f := AnnotationErrFn(k, v);
    assert Collected([f]) == Collected([f][..0]) + Yield(f);
  }

  /** One more annotation: what it adds to the labels and the errors. */
  lemma AnnotationStep(annotations: seq<(string, string)>, i: nat)
    requires i < |annotations|
    ensures FlatMap(annotations[..i + 1], OffenderLabel) == FlatMap(annotations[..i], OffenderLabel) + OffenderLabel(annotations[i])
    ensures FlatMap(annotations[..i + 1], OffenderError) == FlatMap(annotations[..i], OffenderError) + OffenderError(annotations[i])
  {
    FlatMapStep(annotations, i, OffenderLabel);
    FlatMapStep(annotations, i, OffenderError);
  }

  /** The loop of appArmorProfileV1Dot0: each offending annotation is added
      with its label and, with field errors on, its errFn. */
  method CheckAnnotations(meta: ObjectMeta, forbiddenAppArmorProfile: Violations)
    requires forbiddenAppArmorProfile.Valid()
    requires forbiddenAppArmorProfile.data == []
    requires forbiddenAppArmorProfile.errs == if forbiddenAppArmorProfile.withFieldErrors then Some([]) else None
    modifies forbiddenAppArmorProfile
    ensures forbiddenAppArmorProfile.Valid()
    ensures forbiddenAppArmorProfile.data == Labels(meta)
    ensures forbiddenAppArmorProfile.errs
         == if forbiddenAppArmorProfile.withFieldErrors then Some(AnnotationErrors(meta)) else None
  {
    var annotations := meta.annotations;
    for i := 0 to |annotations|
      invariant forbiddenAppArmorProfile.Valid()
      invariant forbiddenAppArmorProfile.data == FlatMap(annotations[..i], OffenderLabel)
      invariant forbiddenAppArmorProfile.errs
             == if forbiddenAppArmorProfile.withFieldErrors then Some(FlatMap(annotations[..i], OffenderError)) else None
    {
      var (k, v) := annotations[i];
      AnnotationStep(annotations, i);
      if HasPrefix(k, ContainerAnnotationKeyPrefix) && !AllowedProfile(v) {
        assert OffenderLabel(annotations[i]) == [Label(k, v)];
        assert OffenderError(annotations[i]) == [Error(ErrorTypeForbidden, AnnotationsAddress + [Key(k)], StrValue(v))];
        if forbiddenAppArmorProfile.withFieldErrors {
          AnnotationErrFnAt(k, v);
          forbiddenAppArmorProfile.Add(Label(k, v), [AnnotationErrFn(k, v)]);
        } else {
          forbiddenAppArmorProfile.Add(Label(k, v), []);
        }
      } else {
        assert OffenderLabel(annotations[i]) == [] && OffenderError(annotations[i]) == [];
        assert FlatMap(annotations[..i + 1], OffenderError) == FlatMap(annotations[..i], OffenderError);
        assert FlatMap(annotations[..i + 1], OffenderLabel) == FlatMap(annotations[..i], OffenderLabel);
      }
    }
    assert annotations[..|annotations|] == annotations;
  }

  /** appArmorProfileV1Dot0 */
  method AppArmorProfileV1Dot0(meta: ObjectMeta, spec: PodSpec, opts: Options) returns (r: CheckResult)
    ensures r == AppArmorResult(meta, opts)
  {
    var forbiddenAppArmorProfile := new Violations(opts.withFieldErrors);
    CheckAnnotations(meta, forbiddenAppArmorProfile);
    if !forbiddenAppArmorProfile.Empty() {
      var forbiddenValues := SortStrings(forbiddenAppArmorProfile.Data());
      r := CheckResult(
        false,
        Pluralize("forbidden AppArmor profile", "forbidden AppArmor profiles", |forbiddenValues|),
        Join(forbiddenValues, ", "),
        forbiddenAppArmorProfile.Errs());
    } else {
      r := AllowedResult;
    }
  }

  // ---------------------------------------------------------------------------
  // What the result means

  /** The empty profile, the runtime default and any localhost profile are
      allowed; an unconfined profile, a bare "localhost" and a near miss of
      the runtime default are not. */
  lemma AllowedProfileExamples()
    ensures AllowedProfile("")
    ensures AllowedProfile("runtime/default")
    ensures AllowedProfile("localhost/custom")
    ensures !AllowedProfile("unconfined")
    ensures !AllowedProfile("localhost")
    ensures !AllowedProfile("runtime/default2")
  {
    assert "localhost/custom"[..|ProfileNamePrefix|] == ProfileNamePrefix;
    assert "unconfined"[..|ProfileNamePrefix|] != ProfileNamePrefix by {
      assert "unconfined"[0] != ProfileNamePrefix[0];
    }
    assert "runtime/default2"[..|ProfileNamePrefix|] != ProfileNamePrefix by {
      assert "runtime/default2"[0] != ProfileNamePrefix[0];
    }
    assert "runtime/default2" != ProfileRuntimeDefault by {
      assert |"runtime/default2"| != |ProfileRuntimeDefault|;
    }
  }

  /** Allowed exactly when every annotation under the container AppArmor key
      prefix names an allowed profile; other annotations are not examined. */
  lemma AppArmorAllowedIff(meta: ObjectMeta, opts: Options)
    ensures var anns := meta.annotations;
      AppArmorResult(meta, opts).allowed <==>
        forall i :: 0 <= i < |anns| ==> HasPrefix(anns[i].0, ContainerAnnotationKeyPrefix) ==> AllowedProfile(anns[i].1)
  {
    var anns := meta.annotations;
    FlatMapEmpty(anns, OffenderLabel);
    assert forall i :: 0 <= i < |anns| ==> (OffenderLabel(anns[i]) == [] <==> !Offends(anns[i]));
  }

  /** The detail lists key="value" for exactly the offending annotations. */
  lemma LabelsAreOffenders(meta: ObjectMeta, entry: string)
    ensures var anns := meta.annotations;
      entry in Labels(meta) <==> exists i :: 0 <= i < |anns| && Offends(anns[i]) && entry == Label(anns[i].0, anns[i].1)
  {
    var anns := meta.annotations;
    FlatMapMember(anns, OffenderLabel, entry);
    assert forall i :: 0 <= i < |anns| ==>
      (entry in OffenderLabel(anns[i]) <==> Offends(anns[i]) && entry == Label(anns[i].0, anns[i].1));
  }

  /** The error list holds, for exactly the offending annotations, a
      Forbidden error at metadata.annotations[key] carrying the value. */
  lemma ErrorsAreOffenders(meta: ObjectMeta, e: Error)
    ensures var anns := meta.annotations;
      e in AnnotationErrors(meta) <==>
        exists i :: 0 <= i < |anns| && Offends(anns[i])
          && e == Error(ErrorTypeForbidden, AnnotationsAddress + [Key(anns[i].0)], StrValue(anns[i].1))
  {
    var anns := meta.annotations;
    FlatMapMember(anns, OffenderError, e);
    assert forall i :: 0 <= i < |anns| ==>
      (e in OffenderError(anns[i]) <==>
         Offends(anns[i]) && e == Error(ErrorTypeForbidden, AnnotationsAddress + [Key(anns[i].0)], StrValue(anns[i].1)));
  }

  function OffendingAnnotation(a: (string, string)): seq<(string, string)>
  {
    if Offends(a) then [a] else []
  }

  /** The offending annotations, in iteration order. */
  function Offenders(meta: ObjectMeta): seq<(string, string)>
  {
    FlatMap(meta.annotations, OffendingAnnotation)
  }

  lemma {:induction false} OneLabelPerOffender(s: seq<(string, string)>)
    ensures |FlatMap(s, OffenderLabel)| == |FlatMap(s, OffendingAnnotation)|
  {
    if s != [] {
      OneLabelPerOffender(s[..|s| - 1]);
    }
  }

  /** The reason is singular for one offending annotation and plural otherwise. */
  lemma ReasonCountsOffenders(meta: ObjectMeta, opts: Options)
    ensures var r := AppArmorResult(meta, opts);
      !r.allowed ==>
        r.forbiddenReason
        == if |Offenders(meta)| == 1 then "forbidden AppArmor profile" else "forbidden AppArmor profiles"
  {
    OneLabelPerOffender(meta.annotations);
  }

  /** The iteration order of the annotations does not matter: the decision,
      the reason and the sorted detail are the same, and the error lists
      hold the same errors. */
  lemma AppArmorOrderIndependent(m1: ObjectMeta, m2: ObjectMeta, opts: Options)
    requires multiset(m1.annotations) == multiset(m2.annotations)
    ensures var r1, r2 := AppArmorResult(m1, opts), AppArmorResult(m2, opts);
      && r1.allowed == r2.allowed
      && r1.forbiddenReason == r2.forbiddenReason
      && r1.forbiddenDetail == r2.forbiddenDetail
      && r1.errList.Some? == r2.errList.Some?
      && (r1.errList.Some? ==> multiset(r1.errList.value) == multiset(r2.errList.value))
  {
    var l1, l2 := Labels(m1), Labels(m2);
    FlatMapPermutation(m1.annotations, m2.annotations, OffenderLabel);
    FlatMapPermutation(m1.annotations, m2.annotations, OffenderError);
    assert |l1| == |multiset(l1)| == |multiset(l2)| == |l2|;
    SortedUnique(SortStrings(l1), SortStrings(l2));
  }
}
