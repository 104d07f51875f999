/**
 * The five baseline checks of this model, as each rule file's Check...()
 * constructor declares them and addCheck registers them.
 */
module Catalog {
  import opened Api
  import HostPorts
  import ProcMount
  import Privileged
  import SELinux
  import AppArmor

  const ModelledChecks: seq<Check> := [
    HostPorts.CheckHostPorts,
    ProcMount.CheckProcMount,
    Privileged.CheckPrivileged,
    SELinux.CheckSELinuxOptions,
    AppArmor.CheckAppArmorProfile
  ]

  /** Each check is well formed, baseline, and applies from version 1.0 with
      one rule body; no two share an id or a body. */
  lemma ModelledChecksWellFormed()
    ensures forall i :: 0 <= i < |ModelledChecks| ==>
      && WellFormedCheck(ModelledChecks[i])
      && ModelledChecks[i].level == Baseline
      && |ModelledChecks[i].versions| == 1
      && ModelledChecks[i].versions[0].minimumVersion == Version(1, 0)
    ensures forall i, j :: 0 <= i < j < |ModelledChecks| ==>
      ModelledChecks[i].id != ModelledChecks[j].id && ModelledChecks[i].versions[0].checkPod != ModelledChecks[j].versions[0].checkPod
  {
  }
}
