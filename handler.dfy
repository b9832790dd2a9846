/** `lambda_handler`: the configuration gate, the shared-secret check, the fixed
    sequence of remote calls inside one try block, and the mapping of the exception
    that escapes it to a status code. */
module Handler {
  import opened Common
  import opened Config
  import opened Headers
  import opened Remote
  import opened Snapshots
  import opened Envelope

  const TokenHeader: string := "X-Webhook-Token"
  /** The waiter configuration, recorded in the wait call. */
  const WaiterDelay: nat := 10
  const WaiterMaxAttempts: nat := 60

  /** The invocation event: not a dictionary at all, or a dictionary whose "headers"
      entry is given (`None` when it is missing or null). */
  datatype Event = NotAMapping | Mapping(headers: Option<HeaderMap>)

  /** `event.get("headers", {}) if isinstance(event, dict) else {}`. */
  function EventHeaders(event: Event): (h: Option<HeaderMap>)
    ensures event.Mapping? ==> h == event.headers
    // an event that is not a dictionary has no token header to offer
    ensures event.NotAMapping? ==> HeaderValue(h, TokenHeader) == ""
  {
    match event
    case NotAMapping => Some([])
    case Mapping(h) => h
  }

  /** The remote calls of a run in which nothing raises, in the order the source makes them. */
  function Plan(cfg: Config): (plan: seq<Call>)
    ensures |plan| == if cfg.snsTopicArn == "" then 6 else 7
  {
    var id := cfg.instanceId;
    [DescribeInstances(id), DescribeInstanceStatus(id, true), RebootInstances(id),
     WaitInstanceStatusOk(id, WaiterDelay, WaiterMaxAttempts),
     DescribeInstances(id), DescribeInstanceStatus(id, true)] +
    (if cfg.snsTopicArn == "" then [] else [Publish(cfg.snsTopicArn, cfg.instanceId, cfg.region)])
  }

  /** The call returned and the handler's use of its reply did not raise. */
  predicate StepOk(c: Call, reply: Reply) {
    match c
    case DescribeInstances(_) => DescribeResult(reply).Ok?
    case DescribeInstanceStatus(_, _) => StatusResult(reply).Ok?
    case _ => reply.Returned?
  }

  /** The exception a failing step raises. */
  function StepError(c: Call, reply: Reply): Error
    requires !StepOk(c, reply)
  {
    match c
    case DescribeInstances(_) => DescribeResult(reply).error
    case DescribeInstanceStatus(_, _) => StatusResult(reply).error
    case _ => reply.error
  }

  /** The position of the first step of `plan`, from `i` on, that raises (|plan| when none does). */
  function FirstFailure(plan: seq<Call>, replies: seq<Reply>, i: nat): (n: nat)
    requires i <= |plan|
    ensures i <= n <= |plan|
    ensures forall j :: i <= j < n ==> StepOk(plan[j], Nth(replies, j))
    ensures n < |plan| ==> !StepOk(plan[n], Nth(replies, n))
    decreases |plan| - i
  {
    if i == |plan| || !StepOk(plan[i], Nth(replies, i)) then i
    else FirstFailure(plan, replies, i + 1)
  }

  /** What the timeout path's best-effort after-read yields, given the replies still pending. */
  datatype Diagnosis = Diagnosis(after: Option<Snapshot>, afterChecks: Option<Checks>, calls: seq<Call>)

  function Diagnose(id: string, replies: seq<Reply>): (d: Diagnosis)
    // the status read is made only after the describe returned
    ensures d.calls == if DescribeResult(Nth(replies, 0)).Ok? then [DescribeInstances(id), DescribeInstanceStatus(id, true)]
                       else [DescribeInstances(id)]
    // a read that raises leaves its field empty instead of escaping
    ensures d.after == if DescribeResult(Nth(replies, 0)).Ok? then Some(DescribeResult(Nth(replies, 0)).value) else None
    ensures d.afterChecks.Some? <==> d.after.Some? && StatusResult(Nth(replies, 1)).Ok?
    ensures d.afterChecks.Some? ==> d.afterChecks.value == StatusResult(Nth(replies, 1)).value
  {
    var described := DescribeResult(Nth(replies, 0));
    if described.Err? then Diagnosis(None, None, [DescribeInstances(id)])
    else
      var checked := StatusResult(Nth(replies, 1));
      Diagnosis(Some(described.value), if checked.Ok? then Some(checked.value) else None,
                [DescribeInstances(id), DescribeInstanceStatus(id, true)])
  }

  /** The response of an invocation and the remote calls it made. */
  datatype Outcome = Outcome(response: Response, calls: seq<Call>)

  /** The except clauses, entered with the exception `e` that left the try block and
      the replies still pending: a waiter error gives 504 after the best-effort read,
      any other exception 500. The calls are the ones the except clause makes. */
  function Escaped(cfg: Config, e: Error, pending: seq<Reply>): (o: Outcome)
    ensures o.response.statusCode == if e.kind == WaiterErr then 504 else 500
    ensures !o.response.body.Ok() && o.response.headers == JsonHeaders
    ensures e.kind == WaiterErr ==>
      o.response.body.TimedOut? && o.response.body.details == e.message &&
      1 <= |o.calls| <= 2 && o.calls[0] == DescribeInstances(cfg.instanceId)
    ensures e.kind != WaiterErr ==>
      o.calls == [] && o.response.body == Failed(e.message, cfg.region, cfg.instanceId)
  {
    if e.kind == WaiterErr then
      var d := Diagnose(cfg.instanceId, pending);
      Outcome(MakeResponse(504, TimedOut(cfg.region, cfg.instanceId, d.after, d.afterChecks, e.message)), d.calls)
    else
      Outcome(MakeResponse(500, Failed(e.message, cfg.region, cfg.instanceId)), [])
  }

  /** How many remote calls the try block makes: the plan up to and including its
      first failing step, or the whole plan. */
  function TryCalls(cfg: Config, replies: seq<Reply>): (count: nat)
    ensures count <= |Plan(cfg)|
  {
    var n := FirstFailure(Plan(cfg), replies, 0);
    if n == |Plan(cfg)| then n else n + 1
  }

  /** The try block's result: the 200 response built from the reads taken before the
      reboot and after the wait, or the exception raised by the first failing step. */
  function TryResult(cfg: Config, replies: seq<Reply>): Result<Response> {
    var plan := Plan(cfg);
    var n := FirstFailure(plan, replies, 0);
    if n == |plan| then
      Ok(MakeResponse(200, Rebooted(cfg.region, cfg.instanceId,
           DescribeResult(Nth(replies, 0)).value, StatusResult(Nth(replies, 1)).value,
           DescribeResult(Nth(replies, 4)).value, StatusResult(Nth(replies, 5)).value)))
    else
      Err(StepError(plan[n], Nth(replies, n)))
  }

  /** The try block followed by the except clause that catches what escapes it. */
  function Workflow(cfg: Config, replies: seq<Reply>): (o: Outcome)
    ensures o.response.statusCode in {200, 500, 504}
    ensures o.response.body.Ok() <==> o.response.statusCode == 200
  {
    var k := TryCalls(cfg, replies);
    match TryResult(cfg, replies)
    case Ok(resp) => Outcome(resp, Plan(cfg)[..k])
    case Err(e) =>
      var x := Escaped(cfg, e, Drop(replies, k));
      Outcome(x.response, Plan(cfg)[..k] + x.calls)
  }

  /** Reference definition of one invocation of the handler. */
  function Run(cfg: Config, event: Event, replies: seq<Reply>): (o: Outcome)
    ensures o.response.headers == JsonHeaders
    ensures o.response.statusCode in {200, 401, 500, 504}
    ensures o.response.body.Ok() <==> o.response.statusCode == 200
  {
    if cfg.instanceId == "" then
      Outcome(MakeResponse(500, MissingInstanceId), [])
    else if cfg.webhookToken != "" && HeaderValue(EventHeaders(event), TokenHeader) != cfg.webhookToken then
      Outcome(MakeResponse(401, Unauthorized), [])
    else
      Workflow(cfg, replies)
  }

  /** `_describe(INSTANCE_ID)`. */
  method Describe(env: Env, id: string) returns (r: Result<Snapshot>)
    modifies env
    ensures r == DescribeResult(Nth(old(env.pending), 0))
    ensures env.pending == Drop(old(env.pending), 1)
    ensures env.trace == old(env.trace) + [DescribeInstances(id)]
  {
    var reply := env.Invoke(DescribeInstances(id));
    r := DescribeResult(reply);
  }

  /** `_status_checks(INSTANCE_ID)`. */
  method StatusChecks(env: Env, id: string) returns (r: Result<Checks>)
    modifies env
    ensures r == StatusResult(Nth(old(env.pending), 0))
    ensures env.pending == Drop(old(env.pending), 1)
    ensures env.trace == old(env.trace) + [DescribeInstanceStatus(id, true)]
  {
    var reply := env.Invoke(DescribeInstanceStatus(id, true));
    r := StatusResult(reply);
  }

  /** The except clauses of the source, as statements. */
  method Recover(cfg: Config, env: Env, e: Error) returns (resp: Response)
    modifies env
    ensures var x := Escaped(cfg, e, old(env.pending));
      resp == x.response && env.trace == old(env.trace) + x.calls &&
      env.pending == Drop(old(env.pending), |x.calls|)
  {
    if e.kind == WaiterErr {
      var after: Option<Snapshot> := None;
      var afterChecks: Option<Checks> := None;
      var described := Describe(env, cfg.instanceId);
      if described.Ok? {
        after := Some(described.value);
        var checked := StatusChecks(env, cfg.instanceId);
        if checked.Ok? {
          afterChecks := Some(checked.value);
        }
        DropTwice(old(env.pending), 1, 1);
      }
      resp := MakeResponse(504, TimedOut(cfg.region, cfg.instanceId, after, afterChecks, e.message));
    } else {
      resp := MakeResponse(500, Failed(e.message, cfg.region, cfg.instanceId));
    }
  }

  /** The first `k` steps of the plan succeed and step `k` raises. */
  lemma FailsAt(cfg: Config, replies: seq<Reply>, k: nat)
    requires k < |Plan(cfg)| && !StepOk(Plan(cfg)[k], Nth(replies, k))
    requires k <= FirstFailure(Plan(cfg), replies, 0)
    ensures TryCalls(cfg, replies) == k + 1
    ensures TryResult(cfg, replies) == Err(StepError(Plan(cfg)[k], Nth(replies, k)))
  {
  }

  /** When no step of the plan raises, the try block answers 200 with the two reads
      taken before the reboot and the two taken after it. */
  lemma SucceedsThrough(cfg: Config, replies: seq<Reply>)
    requires FirstFailure(Plan(cfg), replies, 0) == |Plan(cfg)|
    ensures DescribeResult(Nth(replies, 0)).Ok? && StatusResult(Nth(replies, 1)).Ok?
    ensures DescribeResult(Nth(replies, 4)).Ok? && StatusResult(Nth(replies, 5)).Ok?
    ensures TryCalls(cfg, replies) == |Plan(cfg)|
    ensures TryResult(cfg, replies) ==
      Ok(MakeResponse(200, Rebooted(cfg.region, cfg.instanceId,
           DescribeResult(Nth(replies, 0)).value, StatusResult(Nth(replies, 1)).value,
           DescribeResult(Nth(replies, 4)).value, StatusResult(Nth(replies, 5)).value)))
  {
    var plan := Plan(cfg);
    assert StepOk(plan[0], Nth(replies, 0)) && StepOk(plan[1], Nth(replies, 1));
    assert StepOk(plan[4], Nth(replies, 4)) && StepOk(plan[5], Nth(replies, 5));
  }

  /** `lambda_handler(event, context)` run against a scripted environment. */
  method Handle(cfg: Config, event: Event, env: Env) returns (resp: Response)
    modifies env
    ensures var o := Run(cfg, event, old(env.pending));
      resp == o.response && env.trace == old(env.trace) + o.calls &&
      env.pending == Drop(old(env.pending), |o.calls|)
  {
    if cfg.instanceId == "" {
      return MakeResponse(500, MissingInstanceId);
    }
    var headers := EventHeaders(event);
    if cfg.webhookToken != "" {
      var token := GetHeader(headers, TokenHeader);
      if token != cfg.webhookToken {
        return MakeResponse(401, Unauthorized);
      }
    }
    ghost var replies := env.pending;
    var attempt := TryBlock(cfg, env);
    if attempt.Ok? {
      resp := attempt.value;
    } else {
      resp := Recover(cfg, env, attempt.error);
      DropTwice(replies, TryCalls(cfg, replies), |Escaped(cfg, attempt.error, Drop(replies, TryCalls(cfg, replies))).calls|);
    }
  }

  /** Inside the try block: the first `k` calls of the plan have been made, each returned
      normally, and their replies are consumed. */
  ghost predicate Reached(cfg: Config, env: Env, replies: seq<Reply>, t0: seq<Call>, k: nat)
    reads env
  {
    k <= FirstFailure(Plan(cfg), replies, 0) && env.pending == Drop(replies, k) &&
    env.trace == t0 + Plan(cfg)[..k]
  }

  /** Leaving the try block: its result and the calls it made are those of the reference
      definition. */
  ghost predicate Exited(cfg: Config, env: Env, replies: seq<Reply>, t0: seq<Call>, attempt: Result<Response>)
    reads env
  {
    attempt == TryResult(cfg, replies) && env.trace == t0 + Plan(cfg)[..TryCalls(cfg, replies)] &&
    env.pending == Drop(replies, TryCalls(cfg, replies))
  }

  /** What step `k` of the plan means for the try block, once the steps before it returned. */
  lemma Advance(cfg: Config, replies: seq<Reply>, k: nat)
    requires k < |Plan(cfg)| && k <= FirstFailure(Plan(cfg), replies, 0)
    ensures StepOk(Plan(cfg)[k], Nth(replies, k)) ==> k + 1 <= FirstFailure(Plan(cfg), replies, 0)
    ensures !StepOk(Plan(cfg)[k], Nth(replies, k)) ==>
      TryCalls(cfg, replies) == k + 1 && TryResult(cfg, replies) == Err(StepError(Plan(cfg)[k], Nth(replies, k)))
  {
  }

  lemma TakeOneMore<T>(s: seq<T>, k: nat)
    requires k < |s|
    ensures s[..k + 1] == s[..k] + [s[k]]
  {
  }

  /** Makes call `c`, the k-th of the plan. */
  method Step(cfg: Config, env: Env, ghost replies: seq<Reply>, ghost t0: seq<Call>, ghost k: nat, c: Call)
    returns (reply: Reply)
    requires k < |Plan(cfg)| && c == Plan(cfg)[k]
    requires env.pending == Drop(replies, k) && env.trace == t0 + Plan(cfg)[..k]
    modifies env
    ensures reply == Nth(replies, k)
    ensures env.pending == Drop(replies, k + 1) && env.trace == t0 + Plan(cfg)[..k + 1]
  {
    NthDrop(replies, k, 0);
    reply := env.Invoke(c);
    DropTwice(replies, k, 1);
    TakeOneMore(Plan(cfg), k);
  }

  /** `_describe` then `_status_checks`, as steps k and k + 1 of the plan. */
  method ReadState(cfg: Config, env: Env, ghost replies: seq<Reply>, ghost t0: seq<Call>, ghost k: nat)
    returns (state: Result<(Snapshot, Checks)>)
    requires k == 0 || k == 4
    requires Reached(cfg, env, replies, t0, k)
    modifies env
    ensures state.Ok? ==>
      Reached(cfg, env, replies, t0, k + 2) &&
      state.value == (DescribeResult(Nth(replies, k)).value, StatusResult(Nth(replies, k + 1)).value)
    ensures state.Err? ==> Exited(cfg, env, replies, t0, Err(state.error))
  {
    var id := cfg.instanceId;
    var reply := Step(cfg, env, replies, t0, k, DescribeInstances(id));
    Advance(cfg, replies, k);
    var described := DescribeResult(reply);
    if described.Err? {
      return Err(described.error);
    }
    reply := Step(cfg, env, replies, t0, k + 1, DescribeInstanceStatus(id, true));
    Advance(cfg, replies, k + 1);
    var checked := StatusResult(reply);
    if checked.Err? {
      return Err(checked.error);
    }
    return Ok((described.value, checked.value));
  }

  /** The try block: read, reboot, wait, read again, notify, and build the success
      response; `Err(e)` is the exception `e` escaping the block. */
  method TryBlock(cfg: Config, env: Env) returns (attempt: Result<Response>)
    modifies env
    ensures Exited(cfg, env, old(env.pending), old(env.trace), attempt)
  {
    ghost var replies, t0 := env.pending, env.trace;
    var id := cfg.instanceId;

    var before := ReadState(cfg, env, replies, t0, 0);
    if before.Err? {
      return Err(before.error);
    }
    var reply := Step(cfg, env, replies, t0, 2, RebootInstances(id));
    Advance(cfg, replies, 2);
    if reply.Raised? {
      return Err(reply.error);
    }
    reply := Step(cfg, env, replies, t0, 3, WaitInstanceStatusOk(id, WaiterDelay, WaiterMaxAttempts));
    Advance(cfg, replies, 3);
    if reply.Raised? {
      return Err(reply.error);
    }
    var after := ReadState(cfg, env, replies, t0, 4);
    if after.Err? {
      return Err(after.error);
    }
    if cfg.snsTopicArn != "" {
      reply := Step(cfg, env, replies, t0, 6, Publish(cfg.snsTopicArn, cfg.instanceId, cfg.region));
      Advance(cfg, replies, 6);
      if reply.Raised? {
        return Err(reply.error);
      }
    }
    SucceedsThrough(cfg, replies);
    return Ok(MakeResponse(200, Rebooted(cfg.region, id, before.value.0, before.value.1,
                                         after.value.0, after.value.1)));
  }
}
