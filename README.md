# EC2 reboot webhook handler, modelled in Dafny

The system is an AWS Lambda function, `lambda_handler` in `lambda_function.py`, behind a
webhook. When it is invoked, it:

- checks that an instance is configured;
- checks the shared-secret header `X-Webhook-Token` when a token is configured;
- reads the instance's description and its status checks;
- reboots the instance;
- waits with the `instance_status_ok` waiter (10 seconds apart, at most 60 attempts);
- reads the instance again;
- publishes a one-line message to an SNS topic when one is configured;
- answers with a JSON envelope.

The status code is:

- 200 on success;
- 401 for a bad or missing token;
- 504 when the waiter gives up, after a best-effort read whose failure is swallowed;
- 500 for a missing instance id or for any other exception.

The model has these modules:

- `Common`: `Option`, `Result`, and the three kinds of exception the handler tells apart (client error, waiter error, anything else).
- `Config`: the module-level configuration.
  - `Region` is line 4's fallback chain.
  - `Strip` is Python's `str.strip()` over the full `str.isspace()` set.
  - `LoadConfig` builds the configuration record.
- `Headers`: `_get_header`.
  - `Lookup` is a reference definition.
  - `GetHeader` is the source's loop, proved against `Lookup`.
- `Remote`: the remote calls with their arguments, and the replies.
  - A reply is a payload or a raised exception.
  - `Env` is a class holding the replies still to come (`pending`) and the calls made so far (`trace`).
  - `Env.Invoke` makes one call.
- `Snapshots`: what `_describe` and `_status_checks` keep from a reply. A malformed reply raises the source's `KeyError` or `IndexError` message.
- `Envelope`: `_response` and the five body shapes.
- `Handler`: the handler itself, in two forms.
  - `Run` is a reference definition: the gates, then the fixed plan of calls (`Plan`) executed up to its first failing step (`FirstFailure`), then the except clauses (`Escaped`).
  - `Handle` is the handler as statements, with `TryBlock` and `Recover`, running against an `Env`. It is proved to give `Run`'s response, to make `Run`'s calls in order, and to consume one reply per call.
- `Properties`: what the handler promises, proved about `Run`. This covers the gates, the ordering of calls, success, timeout and failure.

## Model

| member | source | states |
|---|---|---|
| Config.Strip | lambda_function.py:8-10 | the result is one contiguous piece of the input; everything removed is whitespace; it neither starts nor ends with whitespace; it is empty exactly when the input is all whitespace |
| Config.StripIdempotent | lambda_function.py:8-10 | stripping a stripped value changes nothing |
| Config.Region | lambda_function.py:4 | AWS_REGION when set (even to ""), else AWS_DEFAULT_REGION when set, else "us-east-1"; not stripped |
| Config.LoadConfig | lambda_function.py:4-10 | instance id, topic and token are each `Strip` of their variable ("" when unset), so empty exactly when the variable is unset or only whitespace, and already stripped; the region is `Region` |
| Envelope.MakeResponse | lambda_function.py:12-13 | the status code and body as given, with exactly one header, Content-Type "application/json" |
| Handler.EventHeaders | lambda_function.py:49 | a dictionary event gives its "headers" entry; any other event gives no token header |
| Headers.LookupFindsFirstMatch | lambda_function.py:18-20 | the value returned is the one under the first key equal to the wanted key ignoring case |
| Headers.LookupWithoutMatch | lambda_function.py:18-21 | with no key matching, the lookup gives "" |
| Headers.GetHeader | lambda_function.py:15-21 | the loop returns the same value as the reference lookup, and "" for a missing or empty header dictionary |
| Snapshots.DescribeProjects | lambda_function.py:23-33 | the exception of the call passes through; the result is a snapshot exactly when the reply has a first instance of a first reservation with a state; the snapshot holds that instance's fields; a malformed reply raises a plain (non-client, non-waiter) exception |
| Snapshots.StatusProjects | lambda_function.py:35-43 | the exception of the call passes through; the result is "unknown"/"unknown" exactly when the status list is empty or its first record is itself unknown; otherwise the first record's system and instance status |
| Handler.Plan | lambda_function.py:55-76 | the calls of a run in which nothing raises: 6 calls, or 7 with a topic configured |
| Handler.FirstFailure | lambda_function.py:55-76 | every step before the returned position returns normally, and the step at it raises |
| Handler.Workflow | lambda_function.py:55-109 | the try block with its except clauses answers only 200, 500 or 504, and "ok" is true exactly on 200 |
| Handler.Diagnose | lambda_function.py:89-95 | the describe is always tried and the status read only after it returned; a read that raises leaves its field empty instead of escaping |
| Handler.Escaped | lambda_function.py:87-109 | a waiter error gives 504, not ok, with "details" its message and one or two diagnostic calls starting with a describe; any other exception gives 500 with its message, region and instance id, and no call |
| Handler.Run | lambda_function.py:45-109 | every response carries the JSON Content-Type header; the status is one of 200, 401, 500, 504; "ok" is true exactly on 200 |
| Handler.Describe | lambda_function.py:23-24 | one describe call, whose reply gives the snapshot or the exception |
| Handler.StatusChecks | lambda_function.py:35-36 | one status call with IncludeAllInstances, whose reply gives the checks or the exception |
| Handler.Recover | lambda_function.py:87-109 | a waiter error gives 504 after a describe, plus a status read only if the describe returned; a failed read leaves its field empty; anything else gives 500 with no call |
| Handler.FailsAt | lambda_function.py:55-76 | when step k is the first to raise, the try block makes k + 1 calls and lets that step's exception escape |
| Handler.SucceedsThrough | lambda_function.py:78-85 | when no step raises, the try block answers 200 with the reads before the reboot and after the wait |
| Handler.Advance | lambda_function.py:55-76 | a returning step keeps the try block going; a raising step ends it with that step's exception |
| Handler.Step | lambda_function.py:56-76 | the k-th call of the plan receives the k-th reply and extends the trace by that call |
| Handler.ReadState | lambda_function.py:56-57 | describe then status read: both values, or the try block exits with the exception of the first one that raised |
| Handler.TryBlock | lambda_function.py:55-85 | the statements of the try block give the reference result and make exactly the reference calls |
| Handler.Handle | lambda_function.py:45-109 | the handler's statements give the reference response, make the reference calls in order, and consume one reply per call |
| Properties.MissingInstanceId500 | lambda_function.py:46-47 | a missing or whitespace-only INSTANCE_ID gives 500 "Missing INSTANCE_ID" with no remote call |
| Properties.Unauthorized401 | lambda_function.py:49-53 | with an instance configured: 401 exactly when a token is configured and the header value differs; a 401 makes no remote call |
| Properties.AbsentTokenRefused | lambda_function.py:49-53 | an event with no X-Webhook-Token header in any letter case is refused when a token is configured |
| Properties.NoTokenNoCheck | lambda_function.py:50 | an unset or whitespace-only WEBHOOK_TOKEN skips the check, whatever the headers |
| Properties.CallsShape | lambda_function.py:45-109 | no call when a gate refuses; otherwise the plan up to the try block's last call, followed only by reads and only after a waiter error |
| Properties.NoRebootWithoutBeforeReads | lambda_function.py:55-59 | a reboot is issued only after the describe and the status read both returned |
| Properties.BeforeReadFailure500 | lambda_function.py:106-109 | a before-read that raises a non-waiter exception gives 500 with its message, and no reboot, wait or after-read |
| Properties.Success200 | lambda_function.py:78-85 | 200 exactly when every planned call returns; then the calls are the plan and the body carries action "reboot" and the before/after reads |
| Properties.PublishOnlyAfterSuccess | lambda_function.py:71-76 | a publish happens only with a topic configured, after all six earlier calls returned, as the seventh call, with the message naming the instance and the region |
| Properties.WaitTimeout504 | lambda_function.py:87-104 | a waiter error from the wait gives 504 with "details" set to its message; the after-reads are tried once, a failing one is left empty and the status stays 504 |
| Properties.Failure500or504 | lambda_function.py:87-109 | an escaping waiter error gives 504 followed by one or two reads; any other exception gives 500 with its message, region and instance id, and nothing after the failing call |
| Properties.UnguardedTail500 | lambda_function.py:68-76 | an after-read or publish that raises a non-waiter exception gives 500 although the reboot and the wait succeeded |
| Properties.CallOrder | lambda_function.py:45-109 | the calls are always a prefix of describe, status, reboot, wait, describe, status, publish; only a 504 appends the diagnostic reads |

## Left out

- `flask_app.py` is not part of this model. It is a separate Flask latency demo, unrelated to the handler.
- The boto3 clients are replaced by a scripted environment, and calls into them are not modelled. Each call consumes the next scripted reply. A call past the end of the script raises a plain exception; the real system has no such case.
- The waiter's polling loop is left out: its 10-second interval, its 60-attempt budget and its per-poll behaviour. The model records Delay and MaxAttempts in the wait call, and the wait either returns or raises.
- `os.environ` is read once into a `map` that is passed to `LoadConfig`.
- Headers.LowerChar: `str.lower()` is modelled for ASCII letters only, without Unicode case mapping.
- `json.dumps` is left out: bodies are datatypes, not serialized text. `LaunchTime.isoformat()` is an opaque optional string.
- Exceptions are reduced to three kinds (client error, waiter error, other) and their `str(e)` message.
- The following edge cases are left out:
  - a header dictionary that is not a `dict`, or has non-string keys;
  - a "Placement" entry that is `null`;
  - a status record missing its "SystemStatus"/"InstanceStatus" entries;
  - a "State" entry without "Name" (line 27 raises `KeyError 'Name'`; the model has only a present or absent state name and reports `'State'`);
  - a reservation without an "Instances" entry (line 25 raises `KeyError 'Instances'`; the model holds each reservation as a list of instances).
- The Lambda `context` argument is left out; it is unused.
- Behaviour the model keeps exactly as the code has it:
  - The after-reads on the success path (lines 68-69) are not wrapped, so their failure gives 500 (`Properties.UnguardedTail500`).
  - The SNS publish (lines 71-76) is not wrapped either: its failure gives 500, so the notification is not best-effort.
  - `except WaiterError` (line 87) catches a waiter error raised by any call in the try block, not only by the wait.
  - The region (line 4) is not stripped, and an AWS_REGION set to "" is used as "".
