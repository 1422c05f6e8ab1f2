/** The classic (service management) connector's view of one role instance:
    a read-only adapter whose status comes from the role's power state. */
module AsmInstance {
  import opened Wrappers
  import opened CloudTypes

  /** The role's power state; `Unlisted` stands for any value outside the
      five the switch names. */
  datatype PowerState = Started | Starting | Stopped | Stopping | Unknown | Unlisted

  /** A role instance as the listing returns it; its address is kept as the
      text the adapter reports for it. */
  datatype RoleInstance = RoleInstance(instanceName: string, ipAddress: Option<string>, powerState: PowerState)

  datatype Instance = Instance(role: RoleInstance)
  {
    function Name(): (n: string)
      ensures n == role.instanceName
    {
      role.instanceName
    }

    /** Always initialized. */
    function IsInitialized(): (r: bool)
      ensures r
    {
      true
    }

    /** The start date is never known. */
    function StartDate(): (d: Option<int>)
      ensures d.None?
    {
      None
    }

    /** The address text, or none exactly when the role has no address. */
    function IpAddress(): (r: Option<string>)
      ensures r.None? <==> role.ipAddress.None?
      ensures r.Some? ==> r.value == role.ipAddress.value
    {
      if role.ipAddress.Some? then Some(role.ipAddress.value) else None
    }

    /** Power state to cloud status. */
    function InstanceStatus(): (s: InstanceStatus)
      ensures role.powerState == Started <==> s == RUNNING
      ensures role.powerState == Starting <==> s == STARTING
      ensures role.powerState == Stopped <==> s == STOPPED
      ensures role.powerState == Stopping <==> s == STOPPING
      ensures role.powerState in {Unknown, Unlisted} <==> s == UNKNOWN
    {
      match role.powerState
      case Started => RUNNING
      case Starting => STARTING
      case Stopped => STOPPED
      case Stopping => STOPPING
      case Unknown => UNKNOWN
      case Unlisted => UNKNOWN
    }

    /** No property is ever known. */
    function Property(name: string): (r: Option<string>)
      ensures r.None?
    {
      None
    }
  }

  /** The adapter never reports a state the orchestrator schedules or an error:
      every status it returns is one of the five that mirror power states. */
  lemma StatusIsObserved(i: Instance)
    ensures i.InstanceStatus() in {RUNNING, STARTING, STOPPED, STOPPING, UNKNOWN}
    ensures i.InstanceStatus() !in {SCHEDULED_TO_START, SCHEDULED_TO_STOP, RESTARTING, ERROR, ERROR_CANNOT_STOP}
  {
  }
}
