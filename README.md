# Pod-security policy rules, modelled in Dafny

This project models the per-rule evaluation layer of the Kubernetes pod-security
`policy` package, together with the helpers every rule is built on:

- `paths.go`: the lazy field-path builders (`PathFn`, `withPath`, `index`,
  `child`, `key`) and the precomputed path constants;
- `violations.go`: the deferred field-error constructors (`forbidden`,
  `required`, `withBadValue`) and the `Violations` accumulator. The accumulator
  always records labels and records field errors only when they were requested;
- `visitor.go`: `visitContainers`, which walks the init, regular and ephemeral
  containers in that order. Each container is handed either no path or its
  indexed path;
- five baseline rules: `hostPorts`, `procMount`, `privileged`, `seLinuxOptions`
  and `appArmorProfile`.

The project is organised as follows:

- Each rule file becomes one module. The exception is `check_seLinuxOptions.go`:
  its rule is in `SELinux`, and the lemmas about its result are in
  `SELinuxProperties`.
- The rule function `xV1Dot0` is an imperative method. It uses a `Violations`
  object and loops with invariants, and is proved to return
  `XResult(spec, opts)`. Four rules loop over the container visits;
  `appArmorProfile` loops over the annotations.
- `XResult` is a function stating the result outright.
- Lemmas beside each rule prove what the result means:
  - when the pod is allowed (both directions);
  - which containers are labelled;
  - that the listed values are sorted, de-duplicated and exactly the offending ones;
  - that the field errors sit at the addresses written out
    (`spec.containers[i].securityContext.procMount`, and so on).

Supporting modules:

- `Seqs`: `FlatMap` and its laws.
- `Strings`:
  - byte-wise string order;
  - `sets.String` as a strictly sorted sequence;
  - `sort.Strings` as a sorting function proved sorted and a permutation;
  - `pluralize`, `joinQuote` and `strconv.Itoa`.
- `Field`: a stand-in for `field.Path` and `field.Error`.
- `Api`: the pod records, `CheckResult` and `Check`.
- `Catalog`: the five check declarations.

## Model

| member | source | states |
|---|---|---|
| Paths.WithPath | policy/paths.go:44-51 | A nil path gives the absent builder; otherwise the builder yields exactly the given path |
| Paths.IndexPath | policy/paths.go:53-64 | Absent stays absent, a nil parent path gives nil, otherwise the parent path extended by exactly `[i]` |
| Paths.ChildPath | policy/paths.go:66-77 | Absent stays absent, nil stays nil, otherwise the parent path extended by the names in argument order |
| Paths.KeyPath | policy/paths.go:79-90 | Absent stays absent, nil stays nil, otherwise the parent path extended by exactly `[key]` |
| Paths.AbsentChain | policy/paths.go:53-90 | Any chain of index/child/key steps from the absent builder stays absent |
| Paths.NilChain | policy/paths.go:53-90 | Any chain of steps from a builder yielding nil yields nil |
| Paths.PresentChain | policy/paths.go:53-90 | A chain of steps from a builder yielding p yields p followed by the steps' segments, in order |
| Paths.PathConstants | policy/paths.go:21-40 | The precomputed builders yield fixed addresses: `spec.initContainers`, `spec.containers`, `spec.ephemeralContainers`, `spec.securityContext`, `metadata.annotations`, `spec.securityContext.seLinuxOptions.{type,user,role}` and `spec.securityContext.windowsOptions.hostProcess` |
| Field.NewPath | policy/paths.go:21-40 | `field.NewPath(name, more...)` is the child segments of name then of the further names, in order |
| Violations.WithBadValue | policy/violations.go:70-82 | Absent stays absent, nil stays nil, otherwise the same error with only its bad value replaced |
| Violations.Forbidden | policy/violations.go:84-95 | Absent for an absent builder, nil when the path is nil, otherwise a Forbidden error at exactly that path |
| Violations.Required | policy/violations.go:97-108 | As `forbidden`, with a Required error |
| Violations.CollectedInOrder | policy/violations.go:44-50 | When every errFn yields an error, exactly those errors are collected, one per errFn, in argument order |
| Violations.CollectedSkipsNil | policy/violations.go:44-50 | Nil functions and nil results contribute nothing |
| Violations.CollectedAppend | policy/violations.go:44-50 | Collecting two runs of errFns is collecting each run, in order |
| Violations.CollectedFlatMap | policy/violations.go:44-50 | Collecting errFns gathered item by item equals gathering each item's collected errors |
| Violations.Violations.constructor | policy/violations.go:31-39 | No labels; the error list is present and empty iff field errors were requested |
| Violations.Violations.Add | policy/violations.go:41-52 | The label is appended at the end and earlier labels are unchanged. With field errors on, the errors the errFns yield are appended in argument order. With field errors off, the error list stays nil |
| Violations.Violations.Empty | policy/violations.go:54-56 | Empty iff `Len() == 0` |
| Violations.Violations.Len | policy/violations.go:62-64 | The number of labels in `Data()` |
| Violations.Violations.Errs | policy/violations.go:66-68 | The error list is nil exactly when field errors are off |
| Visitor.Commons | policy/visitor.go:43-49 | Ephemeral containers are presented through their common container fields, one for one |
| Visitor.CollectionVisits | policy/visitor.go:29-49 | One visit per container of a collection, in index order, the i-th with the collection's builder indexed by i (or none) |
| Visitor.VisitContainers | policy/visitor.go:28-50 | The three loops produce exactly the visit sequence `ContainerVisits` |
| Visitor.VisitOrder | policy/visitor.go:29-49 | Init, then regular, then ephemeral containers, in index order; the number of visits is the sum of the three lengths |
| Visitor.VisitPathsWithoutFieldErrors | policy/visitor.go:30-47 | With field errors off every visit's builder is absent |
| Visitor.InitVisitPaths | policy/visitor.go:29-35 | With field errors on, the i-th init container's builder yields `spec.initContainers[i]` |
| Visitor.RegularVisitPaths | policy/visitor.go:36-42 | With field errors on, the i-th container's builder yields `spec.containers[i]` |
| Visitor.EphemeralVisitPaths | policy/visitor.go:43-49 | With field errors on, the i-th ephemeral container is visited through its common fields with a builder yielding `spec.ephemeralContainers[i]` |
| Visitor.VisitFlatMap | policy/visitor.go:28-50 | What a callback reports over the visits is what it reports for each container at its written-out address, in visit order |
| HostPorts.HostPortsResult | policy/check_hostPorts.go:84-99 | An allowed result carries no reason, detail or error list; a denial has reason "hostPort"; an error list exactly when denied with field errors on |
| HostPorts.ScanPorts | policy/check_hostPorts.go:64-74 | The container is valid iff no port has a non-zero hostPort; the errFns are one per non-zero port (with field errors on); the port set gains the ports' decimal strings |
| HostPorts.HostPortsV1Dot0 | policy/check_hostPorts.go:60-100 | The imperative rule returns exactly `HostPortsResult` |
| HostPorts.HostPortsAllowedIff | policy/check_hostPorts.go:63-99 | Allowed iff no port of any visited container has a non-zero hostPort |
| HostPorts.OffendersAreBadContainers | policy/check_hostPorts.go:75-81 | A name is labelled iff some container with that name has a non-zero hostPort |
| HostPorts.PortStringsMember | policy/check_hostPorts.go:66-69 | A container's port strings are exactly the decimal forms of its non-zero hostPorts |
| HostPorts.ForbiddenPortsListed | policy/check_hostPorts.go:62-94 | The listed ports are strictly sorted (no repeats) and are exactly the decimal forms of the non-zero hostPorts of all containers |
| HostPorts.PortErrorsMatch | policy/check_hostPorts.go:66-72 | The port errFns collect one Forbidden error per non-zero port, at `ports[i].hostPort` with the integer value, in port order |
| HostPorts.HostPortsFieldErrors | policy/check_hostPorts.go:70-96 | With field errors on, a denial's error list is each container's port errors at `spec.<collection>[i].ports[j].hostPort`, in visit order; with them off there is none |
| ProcMount.ProcMountResult | policy/check_procMount.go:81-94 | An allowed result is bare; a denial has reason "procMount"; an error list exactly when denied with field errors on |
| ProcMount.ProcMountV1Dot0 | policy/check_procMount.go:59-95 | The imperative rule returns exactly `ProcMountResult` |
| ProcMount.ProcMountAllowedIff | policy/check_procMount.go:62-80 | Allowed iff every container has no security context, no procMount, or procMount "Default" |
| ProcMount.OffendersAreBadContainers | policy/check_procMount.go:72-77 | A name is labelled iff some container with that name sets a procMount other than "Default" |
| ProcMount.ForbiddenTypesListed | policy/check_procMount.go:78-89 | The listed values are strictly sorted and are exactly the non-default procMount values set |
| ProcMount.ProcMountFieldErrors | policy/check_procMount.go:73-74 | With field errors on, a denial's error list holds one Forbidden error per offender at `<container>.securityContext.procMount` carrying the value, in visit order |
| ProcMount.ProcMountTestPod | policy/check_procMount_test.go:45-60 | The test pod is denied with reason "procMount", and its detail is exactly the expected text `containers "d", "e" must not set securityContext.procMount to "Unmasked", "other"` |
| ProcMount.TestPodDetailText | policy/check_procMount.go:85-90 | The detail for labels d, e and values "Unmasked", "other" renders as that text: "containers", then each list quoted and joined by ", " |
| ProcMount.ProcMountTestPodFieldErrors | policy/check_procMount_test.go:78-98 | With field errors on, the test pod's errors are at `spec.containers[3].securityContext.procMount` ("Unmasked") and `spec.containers[4]…` ("other") |
| Privileged.PrivilegedResult | policy/check_privileged.go:70-82 | An allowed result is bare; a denial has reason "privileged"; an error list exactly when denied with field errors on |
| Privileged.PrivilegedV1Dot0 | policy/check_privileged.go:57-83 | The imperative rule returns exactly `PrivilegedResult` |
| Privileged.PrivilegedAllowedIff | policy/check_privileged.go:60-68 | Allowed iff no container has a security context with `privileged` present and true |
| Privileged.OffendersAreBadContainers | policy/check_privileged.go:61-66 | A name is labelled iff some container with that name sets privileged=true |
| Privileged.PrivilegedFieldErrors | policy/check_privileged.go:62-63 | With field errors on, a denial's error list holds one Forbidden error per offender at `<container>.securityContext.privileged` with bad value true, in visit order |
| SELinux.Tally.constructor | policy/check_seLinuxOptions.go:78-89 | No errFns, no bad types, user and role not set |
| SELinux.Tally.Validate | policy/check_seLinuxOptions.go:91-121 | Valid iff the type is allowed and user and role are empty. A disallowed type is inserted into the set, and the user/role flags are raised. A container's errFns are appended in type, user, role order; at pod level they go to the pod list only with field errors on |
| SELinux.Tally.CheckType | policy/check_seLinuxOptions.go:93-101 | The type step: valid iff the type is allowed, inserting it otherwise, with its errFn where the source adds it |
| SELinux.Tally.CheckUser | policy/check_seLinuxOptions.go:102-110 | The user step: valid iff the user is empty, raising the flag otherwise |
| SELinux.Tally.CheckRole | policy/check_seLinuxOptions.go:111-119 | The role step: valid iff the role is empty, raising the flag otherwise |
| SELinux.SELinuxResult | policy/check_seLinuxOptions.go:149-176 | An allowed result is bare; a denial has reason "seLinuxOptions"; an error list exactly when denied with field errors on |
| SELinux.CheckPod | policy/check_seLinuxOptions.go:123-127 | The pod is labelled "pod" iff its options are invalid, with its errors at the fixed pod paths when field errors are on. The pod's errFns, types and flags are tallied |
| SELinux.ContainerVisitor | policy/check_seLinuxOptions.go:130-136 | A container is bad iff it has options that fail; its type, flags and errFns are tallied |
| SELinux.CheckContainers | policy/check_seLinuxOptions.go:129-136 | The bad containers are named in visit order; the type set gains every container's disallowed type; the flags record any set user/role |
| SELinux.AddContainers | policy/check_seLinuxOptions.go:138-147 | With bad containers, one "container(s) …" label is added after the pod's, carrying the containers' errFns |
| SELinux.Reasons | policy/check_seLinuxOptions.go:150-163 | The reasons are the sorted bad types, then "user may not be set", then "role may not be set", each only when it applies |
| SELinux.Conclude | policy/check_seLinuxOptions.go:149-176 | Denied iff some label was added, with the labels joined by " and " and the reasons by "; " |
| SELinux.SELinuxOptionsV1Dot0 | policy/check_seLinuxOptions.go:77-177 | The imperative rule returns exactly `SELinuxResult` |
| SELinuxProperties.AllowedTypes | policy/check_seLinuxOptions.go:74 | A type is allowed iff it is "", "container_t", "container_init_t" or "container_kvm_t" |
| SELinuxProperties.SELinuxAllowedIff | policy/check_seLinuxOptions.go:123-176 | Allowed iff the pod's options (if any) and every container's options (if any) are valid |
| SELinuxProperties.BadContainersNamed | policy/check_seLinuxOptions.go:130-135 | A name is labelled iff some container with that name has failing options |
| SELinuxProperties.BadTypesListed | policy/check_seLinuxOptions.go:93-95 | The bad types are strictly sorted and are exactly the disallowed types set at pod or container level |
| SELinuxProperties.SetUserIff | policy/check_seLinuxOptions.go:102-104 | "user may not be set" applies iff the pod or some container sets a user |
| SELinuxProperties.SetRoleIff | policy/check_seLinuxOptions.go:111-113 | "role may not be set" applies iff the pod or some container sets a role |
| SELinuxProperties.FailingOptionsGiveReason | policy/check_seLinuxOptions.go:91-121 | Any failing options record gives at least one reason |
| SELinuxProperties.DeniedWithReasons | policy/check_seLinuxOptions.go:149-172 | A denial always names at least one setter and at least one reason, and its detail is built from them |
| SELinuxProperties.PodErrorsAt | policy/check_seLinuxOptions.go:98-117 | With field errors on, the pod's errors are at `spec.securityContext.seLinuxOptions.{type,user,role}` carrying the offending values |
| SELinuxProperties.ContainerErrorsInOrder | policy/check_seLinuxOptions.go:97-115 | The containers' errors are at `<container>.securityContext.seLinuxOptions.{type,user,role}`, container by container in visit order |
| SELinuxProperties.SELinuxFieldErrors | policy/check_seLinuxOptions.go:123-173 | With field errors on, a denial reports the pod's errors and then the containers', at those addresses; with them off there is no list |
| AppArmor.AppArmorResult | policy/check_appArmorProfile.go:77-88 | Allowed iff no annotation offends; the detail is the labels sorted and joined by ", "; an error list exactly when denied with field errors on |
| AppArmor.CheckAnnotations | policy/check_appArmorProfile.go:67-75 | The accumulator ends with the labels of the offending annotations and (with field errors on) their errors, in iteration order |
| AppArmor.AppArmorProfileV1Dot0 | policy/check_appArmorProfile.go:64-89 | The imperative rule returns exactly `AppArmorResult` |
| AppArmor.AllowedProfileExamples | policy/check_appArmorProfile.go:58-62 | Six concrete examples of `allowedProfile`, not an all-inputs statement: "", "runtime/default" and "localhost/custom" are allowed; "unconfined", a bare "localhost" and "runtime/default2" are not |
| AppArmor.AppArmorAllowedIff | policy/check_appArmorProfile.go:67-88 | Allowed iff every annotation under the container AppArmor key prefix names an allowed profile; other keys are not examined |
| AppArmor.LabelsAreOffenders | policy/check_appArmorProfile.go:68-72 | The labels are `key="value"` for exactly the offending annotations |
| AppArmor.ErrorsAreOffenders | policy/check_appArmorProfile.go:70 | The errors are a Forbidden error at `metadata.annotations[key]` with the value, for exactly the offending annotations |
| AppArmor.ReasonCountsOffenders | policy/check_appArmorProfile.go:82 | The reason is singular for one offending annotation and plural otherwise |
| AppArmor.AppArmorOrderIndependent | policy/check_appArmorProfile.go:67-85 | Reordering the annotations changes neither the decision, the reason nor the detail, and the error lists hold the same errors |
| Strings.SortStrings | policy/check_appArmorProfile.go:79 | `sort.Strings`: the result is sorted and a permutation of the input |
| Strings.SortedUnique | policy/check_appArmorProfile.go:78-83 | Two sorted permutations of one multiset are equal, so the sorted detail has one value |
| Strings.SortedDistinctIsSet | policy/check_hostPorts.go:62-94 | The `sets.String` list is strictly sorted and holds exactly the inserted values |
| Strings.JoinQuoteQuotesEach | policy/check_privileged.go:77 | `joinQuote` quotes each item and joins them with ", " |
| Strings.ItoaInjective | policy/check_hostPorts.go:69 | `strconv.Itoa` is injective: distinct integers, negatives included, have distinct decimal renderings |
| Catalog.ModelledChecksWellFormed | policy/check_hostPorts.go:47-58 | The five declarations are well formed, Baseline, and have one version from 1.0; no two share an id or a body |

## Left out

- Registry, version resolution and level aggregation are not part of this
  model: `addCheck`, `withOptions`, the `init()` registrations and
  `api.MajorMinorVersion`. The `Check...()` constructors are constant data
  (`Catalog`).
- `restrictedVolumesV1Dot0` has no implementation in the files modelled (only a
  test), so it is not modelled.
- The user-namespace relaxation toggle is not modelled.
  `check_procMount_test.go:62-77` and `:104-109` expect `procMountV1Dot0` to
  allow when `RelaxPolicyForUserNamespacePods(true)` is set. The code at
  `check_procMount.go:59-95` never reads such a toggle, so the model follows
  the code, and that test case is not restated.
- `check_privileged.go:60` and `:63` do not match the helpers:
  - the callback takes a `*field.Path` rather than a `PathFn`;
  - `withBadValue` is called as a free function rather than as the `ErrFn`
    method of `violations.go:70`.
  The model follows the evident intent, using `PathFn` and `ErrFn` as the
  other rules do.
- Closure laziness is not modelled. A `PathFn` or `ErrFn` is represented by
  what calling it would yield. Laziness changes only when paths and errors are
  built, not what they are.
- `field.Path` rendering, `field.Error` text and the `Detail` field are not
  modelled. Paths are sequences of child, index and key segments.
- Go's `%q` escaping is modelled as plain quote wrapping, so values containing
  quotes, backslashes or control characters are rendered differently.
- Map iteration order in `appArmorProfileV1Dot0` is not modelled. Annotations
  are a sequence in whichever order the map yields them. Only the decision,
  the reason, the sorted detail and the multiset of field errors are claimed
  to be independent of that order (`AppArmorOrderIndependent`).
- AppArmor.AppArmorResult: the error list is stated in iteration order, which
  Go leaves unspecified. Only its multiset is claimed across orders.
- `sort.Strings` sorts the accumulator's own slice in place. The model sorts a
  copy (`SortStrings`), so it does not capture that `Data()` is left sorted
  afterwards.
- `hostPort` is an `int32` in the source and an integer bounded to that range
  here. No arithmetic is done on it, so no wrap-around arises.
- These helper members are factorings of closures and loop bodies of the
  source, not operations of it:
  - `CheckType`, `CheckUser` and `CheckRole` are the three steps of
    `validSELinuxOptions`;
  - `CheckPod`, `CheckPodOptions`, `ContainerVisitor`, `CheckContainers`,
    `AddContainers`, `Reasons` and `Conclude` are sections of
    `seLinuxOptionsV1Dot0`;
  - `ScanPorts` is the `hostPorts` callback;
  - `CheckAnnotations` is the `appArmorProfileV1Dot0` loop.
- Path constants the five rules do not use are declared but not proved to
  resolve anywhere: `hostNetwork`, `hostPID`, `hostIPC`, `volumes`,
  `runAsNonRoot`, `runAsUser`, `seccompProfile.type` and `sysctls`.
- Constants that are written out are proved equal to their construction in
  `PathConstants`: `metadata.annotations` and the three
  `spec.securityContext.seLinuxOptions` leaves.
