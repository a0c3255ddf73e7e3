/** A worker machine as a user might create it, and everything its first reconcile reads. */
module Example {
  import opened Prelude
  import opened Names
  import opened GuestConfig
  import opened MachineObject
  import opened ApiServer
  import opened Controller

  const AKey := Key("default", "md-0")

  const AConfig := Config("ubuntu", "small", "", "", [], "", None, "")

  const AMachine := Machine(Some("md-0"), "demo", false, SwiftGuestBackend, Some(AConfig), false, false, Fresh)

  const AnOwner := CapiMachine(Some("md-0-boot"), false, "")

  const ACluster := Cluster(true, "demo", false)

  const AnEnvironment := Environment(
    map[AKey := AnOwner], map[Key("default", "demo") := ACluster], map[],
    map[Key("default", "md-0-boot") := Secret(true, false), Key("default", "demo" + "-kubeconfig") := Secret(true, true)])

  // What a reconcile of the machine starts from.
  const AContext := Context(AMachine, Fresh.(finalizer := true), AnOwner, ACluster)

  lemma ConfigIsOK()
    ensures ConfigOK(AContext.before.config, false)
  {
  }
}
