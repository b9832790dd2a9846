/** What the handler promises, stated about its reference definition `Handler.Run`
    (which `Handler.Handle` is proved to follow). */
module Properties {
  import opened Common
  import opened Config
  import opened Headers
  import opened Remote
  import opened Snapshots
  import opened Envelope
  import opened Handler

  /** The configuration and the event get past both gates into the try block. */
  predicate PassesGates(cfg: Config, event: Event) {
    cfg.instanceId != "" &&
    (cfg.webhookToken == "" || HeaderValue(EventHeaders(event), TokenHeader) == cfg.webhookToken)
  }

  predicate IsPrefix(a: seq<Call>, b: seq<Call>) {
    |a| <= |b| && a == b[..|a|]
  }

  /** A missing or whitespace-only INSTANCE_ID answers 500 "Missing INSTANCE_ID" before
      anything else: no header is looked at and no remote call is made. */
  lemma MissingInstanceId500(vars: map<string, string>, event: Event, replies: seq<Reply>)
    requires Unset(vars, "INSTANCE_ID")
    ensures var o := Run(LoadConfig(vars), event, replies);
      o.response.statusCode == 500 && o.response.body == MissingInstanceId &&
      o.response.body.ErrorField() == Some("Missing INSTANCE_ID") && o.calls == []
  {
  }

  /** With an instance configured, the answer is 401 exactly when a token is configured
      and the X-Webhook-Token header (looked up ignoring case, "" when absent) differs
      from it; a 401 makes no remote call. */
  lemma Unauthorized401(cfg: Config, event: Event, replies: seq<Reply>)
    requires cfg.instanceId != ""
    ensures var o := Run(cfg, event, replies);
      (o.response.statusCode == 401 <==>
         cfg.webhookToken != "" && HeaderValue(EventHeaders(event), TokenHeader) != cfg.webhookToken) &&
      (o.response.statusCode == 401 ==> o.response.body == Unauthorized && o.calls == [])
  {
  }

  /** An event with no X-Webhook-Token header in any letter case is refused whenever a
      token is configured. */
  lemma {:induction false} AbsentTokenRefused(cfg: Config, hs: HeaderMap, replies: seq<Reply>)
    requires cfg.instanceId != "" && cfg.webhookToken != ""
    requires forall j :: 0 <= j < |hs| ==> !SameKey(hs[j].0, TokenHeader)
    ensures Run(cfg, Mapping(Some(hs)), replies) == Outcome(MakeResponse(401, Unauthorized), [])
  {
    LookupWithoutMatch(hs, TokenHeader);
  }

  /** An unset or whitespace-only WEBHOOK_TOKEN skips the check: the headers do not matter. */
  lemma NoTokenNoCheck(vars: map<string, string>, event: Event, replies: seq<Reply>)
    requires !Unset(vars, "INSTANCE_ID") && Unset(vars, "WEBHOOK_TOKEN")
    ensures Run(LoadConfig(vars), event, replies) == Workflow(LoadConfig(vars), replies)
  {
  }

  /** The calls of any invocation: none when a gate refuses; otherwise the plan up to
      the try block's last call, followed only by reads, and only after a waiter error. */
  lemma CallsShape(cfg: Config, event: Event, replies: seq<Reply>)
    ensures var o, k := Run(cfg, event, replies), TryCalls(cfg, replies);
      (!PassesGates(cfg, event) ==> o.calls == []) &&
      (PassesGates(cfg, event) ==>
        k <= |o.calls| && o.calls[..k] == Plan(cfg)[..k] &&
        (forall j :: k <= j < |o.calls| ==>
           o.calls[j].DescribeInstances? || o.calls[j].DescribeInstanceStatus?) &&
        (k < |o.calls| ==> TryResult(cfg, replies).Err? && TryResult(cfg, replies).error.kind == WaiterErr))
  {
  }

  /** No reboot is issued unless both reads before it returned. */
  lemma NoRebootWithoutBeforeReads(cfg: Config, event: Event, replies: seq<Reply>)
    ensures var o := Run(cfg, event, replies);
      (exists i :: 0 <= i < |o.calls| && o.calls[i].RebootInstances?) ==>
        DescribeResult(Nth(replies, 0)).Ok? && StatusResult(Nth(replies, 1)).Ok? &&
        o.calls[..2] == [DescribeInstances(cfg.instanceId), DescribeInstanceStatus(cfg.instanceId, true)]
  {
    var o := Run(cfg, event, replies);
    if i :| 0 <= i < |o.calls| && o.calls[i].RebootInstances? {
      var plan, k := Plan(cfg), TryCalls(cfg, replies);
      CallsShape(cfg, event, replies);
      assert i < k;
      assert plan[..k][i] == plan[i];
      assert FirstFailure(plan, replies, 0) >= 2;
      assert StepOk(plan[0], Nth(replies, 0)) && StepOk(plan[1], Nth(replies, 1));
      assert o.calls[..2] == plan[..k][..2];
    }
  }

  /** A before-read that raises anything but a waiter error ends the invocation with 500
      after that read: no reboot, no wait, no after-read. */
  lemma BeforeReadFailure500(cfg: Config, event: Event, replies: seq<Reply>)
    requires PassesGates(cfg, event)
    requires DescribeResult(Nth(replies, 0)).Err? ||
             (DescribeResult(Nth(replies, 0)).Ok? && StatusResult(Nth(replies, 1)).Err?)
    ensures var o, id := Run(cfg, event, replies), cfg.instanceId;
      var e := if DescribeResult(Nth(replies, 0)).Err? then DescribeResult(Nth(replies, 0)).error
               else StatusResult(Nth(replies, 1)).error;
      e.kind != WaiterErr ==>
        o.response.statusCode == 500 && o.response.body == Failed(e.message, cfg.region, id) &&
        o.calls == if DescribeResult(Nth(replies, 0)).Err? then [DescribeInstances(id)]
                   else [DescribeInstances(id), DescribeInstanceStatus(id, true)]
  {
    if DescribeResult(Nth(replies, 0)).Err? {
      FailsAt(cfg, replies, 0);
    } else {
      FailsAt(cfg, replies, 1);
    }
  }

  /** 200 comes out exactly when every call of the plan returned (the publish only when a
      topic is configured); the body then carries the reads before the reboot and after
      the wait, and the calls are the plan in order. */
  lemma Success200(cfg: Config, event: Event, replies: seq<Reply>)
    requires PassesGates(cfg, event)
    ensures var o := Run(cfg, event, replies);
      (o.response.statusCode == 200 <==> FirstFailure(Plan(cfg), replies, 0) == |Plan(cfg)|) &&
      (o.response.statusCode == 200 ==>
        o.calls == Plan(cfg) && o.response.body.Action() == Some("reboot") &&
        o.response.body == Rebooted(cfg.region, cfg.instanceId,
          DescribeResult(Nth(replies, 0)).value, StatusResult(Nth(replies, 1)).value,
          DescribeResult(Nth(replies, 4)).value, StatusResult(Nth(replies, 5)).value))
  {
    if FirstFailure(Plan(cfg), replies, 0) == |Plan(cfg)| {
      SucceedsThrough(cfg, replies);
    }
  }

  /** The publish call is made only with a topic configured, only after every earlier
      call returned, and as the seventh call; it names the instance and the region. */
  lemma PublishOnlyAfterSuccess(cfg: Config, event: Event, replies: seq<Reply>)
    ensures var o := Run(cfg, event, replies);
      (exists i :: 0 <= i < |o.calls| && o.calls[i].Publish?) ==>
        cfg.snsTopicArn != "" && FirstFailure(Plan(cfg), replies, 0) >= 6 &&
        IsPrefix(Plan(cfg), o.calls) &&
        o.calls[6] == Publish(cfg.snsTopicArn, cfg.instanceId, cfg.region) &&
        o.calls[6].Message() == "EC2 " + cfg.instanceId + " rebooted and passed status checks in " + cfg.region + "."
  {
    var o := Run(cfg, event, replies);
    if i :| 0 <= i < |o.calls| && o.calls[i].Publish? {
      var plan, k := Plan(cfg), TryCalls(cfg, replies);
      CallsShape(cfg, event, replies);
      assert i < k;
      assert plan[..k][i] == plan[i];
      assert i == 6 && k == 7 && |plan| == 7;
      assert FirstFailure(plan, replies, 0) >= 6;
      assert o.calls[..7] == plan;
    }
  }

  /** A wait that raises a waiter error after the before-reads and the reboot returned
      answers 504 with ok false; the after-reads are attempted exactly once more, a failing
      one leaves its field empty, and the status stays 504. */
  lemma WaitTimeout504(cfg: Config, event: Event, replies: seq<Reply>, e: Error)
    requires PassesGates(cfg, event) && FirstFailure(Plan(cfg), replies, 0) >= 3
    requires Nth(replies, 3) == Raised(e) && e.kind == WaiterErr
    ensures var o, id := Run(cfg, event, replies), cfg.instanceId;
      var after := DescribeResult(Nth(replies, 4));
      var checks := StatusResult(Nth(replies, 5));
      o.response.statusCode == 504 && !o.response.body.Ok() &&
      o.response.body == TimedOut(cfg.region, id,
        if after.Ok? then Some(after.value) else None,
        if after.Ok? && checks.Ok? then Some(checks.value) else None,
        e.message) &&
      o.calls == Plan(cfg)[..4] +
        if after.Ok? then [DescribeInstances(id), DescribeInstanceStatus(id, true)] else [DescribeInstances(id)]
  {
    FailsAt(cfg, replies, 3);
    NthDrop(replies, 4, 0);
    NthDrop(replies, 4, 1);
  }

  /** Whatever escapes the try block as a waiter error gives 504 and whatever else
      escapes gives 500 carrying `str(e)`, the region and the instance id; the calls are
      the plan up to the failing one, then on 504 the best-effort reads. */
  lemma Failure500or504(cfg: Config, event: Event, replies: seq<Reply>)
    requires PassesGates(cfg, event) && FirstFailure(Plan(cfg), replies, 0) < |Plan(cfg)|
    ensures var o, n := Run(cfg, event, replies), FirstFailure(Plan(cfg), replies, 0);
      var e := StepError(Plan(cfg)[n], Nth(replies, n));
      !o.response.body.Ok() && IsPrefix(Plan(cfg)[..n + 1], o.calls) &&
      (e.kind == WaiterErr ==>
         o.response.statusCode == 504 && o.response.body.details == e.message &&
         1 <= |o.calls| - (n + 1) <= 2 && o.calls[n + 1] == DescribeInstances(cfg.instanceId)) &&
      (e.kind != WaiterErr ==>
         o.response.statusCode == 500 && o.calls == Plan(cfg)[..n + 1] &&
         o.response.body == Failed(e.message, cfg.region, cfg.instanceId))
  {
    var n := FirstFailure(Plan(cfg), replies, 0);
    FailsAt(cfg, replies, n);
  }

  /** The reads after the wait and the publish are not guarded: when one of them raises
      (other than a waiter error) the whole invocation answers 500, not a success. */
  lemma UnguardedTail500(cfg: Config, event: Event, replies: seq<Reply>, k: nat)
    requires PassesGates(cfg, event) && 4 <= k < |Plan(cfg)| && FirstFailure(Plan(cfg), replies, 0) == k
    requires StepError(Plan(cfg)[k], Nth(replies, k)).kind != WaiterErr
    ensures var o := Run(cfg, event, replies);
      o.response.statusCode == 500 && o.calls == Plan(cfg)[..k + 1] &&
      o.response.body == Failed(StepError(Plan(cfg)[k], Nth(replies, k)).message, cfg.region, cfg.instanceId)
  {
    FailsAt(cfg, replies, k);
  }

  /** The remote calls always follow the fixed order describe, status, reboot, wait,
      describe, status, publish, cut at the first failure; only a 504 appends the
      best-effort reads after the cut. */
  lemma {:induction false} CallOrder(cfg: Config, event: Event, replies: seq<Reply>)
    ensures var o := Run(cfg, event, replies);
      (o.response.statusCode != 504 ==> IsPrefix(o.calls, Plan(cfg))) &&
      (o.response.statusCode == 504 ==>
        exists k :: 0 < k <= |Plan(cfg)| && IsPrefix(Plan(cfg)[..k], o.calls) &&
          (o.calls[k..] == [DescribeInstances(cfg.instanceId)] ||
           o.calls[k..] == [DescribeInstances(cfg.instanceId), DescribeInstanceStatus(cfg.instanceId, true)]))
  {
    var o := Run(cfg, event, replies);
    if PassesGates(cfg, event) {
      var k := TryCalls(cfg, replies);
      if TryResult(cfg, replies).Err? {
        var n := FirstFailure(Plan(cfg), replies, 0);
        FailsAt(cfg, replies, n);
        assert o.calls[k..] == Escaped(cfg, TryResult(cfg, replies).error, Drop(replies, k)).calls;
      }
    }
  }
}
