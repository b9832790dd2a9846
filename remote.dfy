/** The remote side of the handler (the EC2 and SNS clients and the status waiter),
    seen only through the calls the handler makes and the replies it gets back.
    The environment is scripted: the n-th remote call of an invocation receives the
    n-th scripted reply, and every call is appended to a trace. */
module Remote {
  import opened Common

  /** One instance record of a `describe_instances` reply; `None` is a key the record lacks. */
  datatype RawInstance = RawInstance(
    stateName: Option<string>,        // State.Name
    instanceType: Option<string>,     // InstanceType
    availabilityZone: Option<string>, // Placement.AvailabilityZone
    launchTime: Option<string>,       // LaunchTime, already rendered by isoformat()
    privateIp: Option<string>,        // PrivateIpAddress
    publicIp: Option<string>)         // PublicIpAddress

  /** One record of a `describe_instance_status` reply. */
  datatype StatusRecord = StatusRecord(systemStatus: string, instanceStatus: string)

  /** The shape of a reply that returned normally. */
  datatype Payload =
    | Reservations(reservations: seq<seq<RawInstance>>)  // {"Reservations": [{"Instances": [...]}, ...]}
    | InstanceStatuses(statuses: seq<StatusRecord>)    // {"InstanceStatuses": [...]}
    | Accepted                                         // a reply whose content the handler ignores

  /** What a remote call does: return a payload or raise. */
  datatype Reply = Returned(payload: Payload) | Raised(error: Error)

  /** The remote calls the handler makes, with the arguments it passes. */
  datatype Call =
    | DescribeInstances(instanceId: string)
    | DescribeInstanceStatus(instanceId: string, includeAllInstances: bool)
    | RebootInstances(instanceId: string)
    | WaitInstanceStatusOk(instanceId: string, delay: nat, maxAttempts: nat)
    // sns.publish: the topic, and the instance and region its message names
    | Publish(topicArn: string, instanceId: string, region: string)
  {
    /** The Subject argument of the publish call. */
    function Subject(): string
      requires Publish?
    {
      "EC2 Reboot: status checks OK"
    }

    /** The Message argument of the publish call. */
    function Message(): string
      requires Publish?
    {
      "EC2 " + instanceId + " rebooted and passed status checks in " + region + "."
    }
  }

  /** The answer to a call beyond the end of the script. */
  const Unscripted: Reply := Raised(Error(OtherErr, "no scripted reply"))

  /** The reply the k-th call receives. */
  function Nth(replies: seq<Reply>, k: nat): Reply {
    if k < |replies| then replies[k] else Unscripted
  }

  /** The replies left after k calls. */
  function Drop(replies: seq<Reply>, k: nat): seq<Reply> {
    if k <= |replies| then replies[k..] else []
  }

  lemma NthDrop(replies: seq<Reply>, k: nat, j: nat)
    ensures Nth(Drop(replies, k), j) == Nth(replies, k + j)
  {
  }

  lemma DropTwice(replies: seq<Reply>, a: nat, b: nat)
    ensures Drop(Drop(replies, a), b) == Drop(replies, a + b)
  {
  }

  /** A scripted environment: the replies still to be given, and the calls made so far. */
  class Env {
    var pending: seq<Reply>
    var trace: seq<Call>

    constructor (script: seq<Reply>)
      ensures pending == script && trace == []
    {
      pending := script;
      trace := [];
    }

    /** Makes one remote call: records it and hands back the next scripted reply. */
    method Invoke(c: Call) returns (r: Reply)
      modifies this
      ensures r == Nth(old(pending), 0)
      ensures pending == Drop(old(pending), 1)
      ensures trace == old(trace) + [c]
    {
      r := Nth(pending, 0);
      pending := Drop(pending, 1);
      trace := trace + [c];
    }
  }
}
