/** `_describe` and `_status_checks`: the fields the handler keeps from the two
    EC2 read calls. */
module Snapshots {
  import opened Common
  import opened Remote

  /** The dictionary `_describe` returns. */
  datatype Snapshot = Snapshot(
    state: string,
    instanceType: Option<string>,
    az: Option<string>,
    launchTime: Option<string>,
    privateIp: Option<string>,
    publicIp: Option<string>)

  /** The dictionary `_status_checks` returns. */
  datatype Checks = Checks(system: string, instance: string)

  /** What `_status_checks` reports when the provider has no status record yet. */
  const UnknownChecks: Checks := Checks("unknown", "unknown")

  /** `str(e)` of the exceptions a malformed reply raises. */
  const MissingReservations: string := "'Reservations'"
  const MissingStatuses: string := "'InstanceStatuses'"
  const IndexOutOfRange: string := "list index out of range"
  const MissingState: string := "'State'"

  /** The first instance of the first reservation, if there is one. */
  predicate HasFirstInstance(p: Payload) {
    p.Reservations? && p.reservations != [] && p.reservations[0] != []
  }

  /** `_describe` applied to the reply of `describe_instances`. */
  function DescribeResult(reply: Reply): Result<Snapshot> {
    match reply
    case Raised(e) => Err(e)
    case Returned(p) =>
      if !p.Reservations? then Err(Error(OtherErr, MissingReservations))
      else if p.reservations == [] || p.reservations[0] == [] then Err(Error(OtherErr, IndexOutOfRange))
      else
        var inst := p.reservations[0][0];
        if inst.stateName.None? then Err(Error(OtherErr, MissingState))
        else Ok(Snapshot(inst.stateName.value, inst.instanceType, inst.availabilityZone,
                         inst.launchTime, inst.privateIp, inst.publicIp))
  }

  /** `_status_checks` applied to the reply of `describe_instance_status`. */
  function StatusResult(reply: Reply): Result<Checks> {
    match reply
    case Raised(e) => Err(e)
    case Returned(p) =>
      if !p.InstanceStatuses? then Err(Error(OtherErr, MissingStatuses))
      else if p.statuses == [] then Ok(UnknownChecks)
      else Ok(Checks(p.statuses[0].systemStatus, p.statuses[0].instanceStatus))
  }

  /** `_describe` passes on the error the call raised, or projects the first instance of
      the first reservation; a reply without one raises a plain Python exception. */
  lemma DescribeProjects(reply: Reply)
    ensures reply.Raised? ==> DescribeResult(reply) == Err(reply.error)
    ensures DescribeResult(reply).Ok? <==>
      reply.Returned? && HasFirstInstance(reply.payload) && reply.payload.reservations[0][0].stateName.Some?
    ensures DescribeResult(reply).Ok? ==>
      var inst, snap := reply.payload.reservations[0][0], DescribeResult(reply).value;
      snap.state == inst.stateName.value && snap.instanceType == inst.instanceType &&
      snap.az == inst.availabilityZone && snap.launchTime == inst.launchTime &&
      snap.privateIp == inst.privateIp && snap.publicIp == inst.publicIp
    // a malformed reply raises a plain Python exception, never a client or waiter error
    ensures reply.Returned? && DescribeResult(reply).Err? ==> DescribeResult(reply).error.kind == OtherErr
  {
  }

  /** `_status_checks` passes on the error the call raised; it reports the sentinel
      exactly when the status list is empty or its first record is itself unknown, and
      otherwise the first record's two statuses. */
  lemma StatusProjects(reply: Reply)
    ensures reply.Raised? ==> StatusResult(reply) == Err(reply.error)
    ensures StatusResult(reply).Ok? <==> reply.Returned? && reply.payload.InstanceStatuses?
    ensures reply.Returned? && StatusResult(reply).Err? ==> StatusResult(reply).error.kind == OtherErr
    ensures StatusResult(reply) == Ok(UnknownChecks) <==>
      reply.Returned? && reply.payload.InstanceStatuses? &&
      (reply.payload.statuses == [] ||
       (reply.payload.statuses[0].systemStatus == "unknown" && reply.payload.statuses[0].instanceStatus == "unknown"))
    ensures StatusResult(reply).Ok? && reply.payload.statuses != [] ==>
      StatusResult(reply).value.system == reply.payload.statuses[0].systemStatus &&
      StatusResult(reply).value.instance == reply.payload.statuses[0].instanceStatus
  {
  }
}
