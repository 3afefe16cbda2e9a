/** The working copy of a machine that a reconcile edits before it is persisted. */
module MachineScope {
  import opened Common
  import opened Types
  import P = Protocol
  import ProviderId

  class Scope {
    const name: string
    const info: P.MachineInfo
    var nomadMachine: NomadMachine

    constructor (name: string, info: P.MachineInfo, nomadMachine: NomadMachine)
      ensures this.name == name && this.info == info && this.nomadMachine == nomadMachine
    {
      this.name := name;
      this.info := info;
      this.nomadMachine := nomadMachine;
    }

    method SetProviderID(jobID: string, deploymentID: string)
      modifies this
      ensures nomadMachine ==
        old(nomadMachine).(providerID := Some("nomad:///" + jobID + "/" + deploymentID))
    {
      nomadMachine := nomadMachine.(providerID := Some("nomad:///" + jobID + "/" + deploymentID));
    }

    method SetDeploymentStatus(status: string, description: string)
      modifies this
      ensures nomadMachine ==
        old(nomadMachine).(deploymentStatus := Some(status), statusDescription := Some(description))
    {
      nomadMachine := nomadMachine.(deploymentStatus := Some(status));
      nomadMachine := nomadMachine.(statusDescription := Some(description));
    }

    method SetReady(ready: bool)
      modifies this
      ensures nomadMachine == old(nomadMachine).(ready := ready)
    {
      nomadMachine := nomadMachine.(ready := ready);
    }

    method SetFailure(reason: string, message: string)
      modifies this
      ensures nomadMachine == old(nomadMachine).(failureReason := Some(reason), failureMessage := Some(message))
    {
      nomadMachine := nomadMachine.(failureReason := Some(reason));
      nomadMachine := nomadMachine.(failureMessage := Some(message));
    }

    method SetAddresses(addresses: seq<string>)
      modifies this
      ensures nomadMachine == old(nomadMachine).(addresses := addresses)
    {
      nomadMachine := nomadMachine.(addresses := addresses);
    }

    method MarkDeployed(condition: Condition)
      modifies this
      ensures nomadMachine == old(nomadMachine).(deployed := condition)
    {
      nomadMachine := nomadMachine.(deployed := condition);
    }

    method MarkDNS(attached: bool, condition: Condition)
      modifies this
      ensures nomadMachine == old(nomadMachine).(dnsAttached := attached, dns := condition)
    {
      nomadMachine := nomadMachine.(dns := condition);
      nomadMachine := nomadMachine.(dnsAttached := attached);
    }

    method AddFinalizer()
      modifies this
      ensures nomadMachine == old(nomadMachine).(finalizer := true)
    {
      nomadMachine := nomadMachine.(finalizer := true);
    }

    method RemoveFinalizer()
      modifies this
      ensures nomadMachine == old(nomadMachine).(finalizer := false)
    {
      nomadMachine := nomadMachine.(finalizer := false);
    }

    predicate IsRunning()
      reads this
    {
      nomadMachine.deploymentStatus.Some? && nomadMachine.deploymentStatus.value in RUNNING_STATES
    }

    predicate IsOperational()
      reads this
    {
      nomadMachine.deploymentStatus.Some? && nomadMachine.deploymentStatus.value in OPERATIONAL_STATES
    }

    predicate IsInKnownState()
      reads this
    {
      nomadMachine.deploymentStatus.Some? && nomadMachine.deploymentStatus.value in KNOWN_STATES
    }
  }
}
