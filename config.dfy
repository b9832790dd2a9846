/** The module-level configuration of the handler: the values read once from the
    process environment, with Python's `str.strip()` applied to the three that the
    source strips. */
module Config {

  /** Python's `str.isspace()` on one character: the characters `str.strip()` removes. */
  predicate IsSpace(c: char) {
    ('\t' <= c <= '\r') || ('\U{1C}' <= c <= '\U{1F}') || c == ' ' ||
    c == '\U{85}' || c == '\U{A0}' || c == '\U{1680}' || ('\U{2000}' <= c <= '\U{200A}') ||
    c == '\U{2028}' || c == '\U{2029}' || c == '\U{202F}' || c == '\U{205F}' || c == '\U{3000}'
  }

  /** Every character of `s` is whitespace (true of the empty string). */
  predicate AllSpace(s: string) {
    forall i :: 0 <= i < |s| ==> IsSpace(s[i])
  }

  /** Length of the run of whitespace that starts `s`. */
  function LeadingSpaces(s: string): (n: nat)
    ensures n <= |s|
    ensures forall i :: 0 <= i < n ==> IsSpace(s[i])
    ensures n < |s| ==> !IsSpace(s[n])
  {
    if s == [] || !IsSpace(s[0]) then 0 else 1 + LeadingSpaces(s[1..])
  }

  /** Length of the run of whitespace that ends `s`. */
  function TrailingSpaces(s: string): (n: nat)
    ensures n <= |s|
    ensures forall i :: |s| - n <= i < |s| ==> IsSpace(s[i])
    ensures n < |s| ==> !IsSpace(s[|s| - 1 - n])
  {
    if s == [] || !IsSpace(s[|s| - 1]) then 0 else 1 + TrailingSpaces(s[..|s| - 1])
  }

  /** Python's `s.strip()`: `s` without its leading and trailing whitespace. */
  function Strip(s: string): (r: string)
    ensures LeadingSpaces(s) + |r| <= |s|
    // what is kept is one contiguous piece of `s` ...
    ensures forall k :: 0 <= k < |r| ==> r[k] == s[LeadingSpaces(s) + k]
    // ... and everything removed around it is whitespace
    ensures forall i :: 0 <= i < |s| && !(LeadingSpaces(s) <= i < LeadingSpaces(s) + |r|) ==> IsSpace(s[i])
    // the piece kept neither starts nor ends with whitespace
    ensures r != [] ==> !IsSpace(r[0]) && !IsSpace(r[|r| - 1])
    ensures r == [] <==> AllSpace(s)
  {
    var lead := LeadingSpaces(s);
    if lead == |s| then [] else s[lead..|s| - TrailingSpaces(s)]
  }

  /** Stripping twice is stripping once. */
  lemma {:induction false} StripIdempotent(s: string)
    ensures Strip(Strip(s)) == Strip(s)
  {
    var r := Strip(s);
    if r != [] {
      assert LeadingSpaces(r) == 0;
      assert TrailingSpaces(r) == 0;
    }
  }

  /** The values the handler reads from the environment when the module loads. */
  datatype Config = Config(region: string, instanceId: string, snsTopicArn: string, webhookToken: string)

  const DefaultRegion: string := "us-east-1"

  /** `os.environ.get(name, "")`. */
  function EnvGet(vars: map<string, string>, name: string): string {
    if name in vars then vars[name] else ""
  }

  /** A configured value is absent when its variable is unset or only whitespace. */
  predicate Unset(vars: map<string, string>, name: string) {
    name !in vars || AllSpace(vars[name])
  }

  /** `os.environ.get(name, "").strip()`: empty exactly when the variable is unset or
      only whitespace, and already stripped. */
  function StrippedEnv(vars: map<string, string>, name: string): (r: string)
    ensures r == Strip(EnvGet(vars, name))
    ensures r == "" <==> Unset(vars, name)
    ensures Strip(r) == r
  {
    StripIdempotent(EnvGet(vars, name));
    Strip(EnvGet(vars, name))
  }

  /** Line 4's region: AWS_REGION if set (even to ""), else AWS_DEFAULT_REGION if set,
      else "us-east-1"; unlike the other values it is not stripped. */
  function Region(vars: map<string, string>): (r: string)
    ensures "AWS_REGION" in vars ==> r == vars["AWS_REGION"]
    ensures "AWS_REGION" !in vars && "AWS_DEFAULT_REGION" in vars ==> r == vars["AWS_DEFAULT_REGION"]
    ensures "AWS_REGION" !in vars && "AWS_DEFAULT_REGION" !in vars ==> r == DefaultRegion
  {
    if "AWS_REGION" in vars then vars["AWS_REGION"]
    else if "AWS_DEFAULT_REGION" in vars then vars["AWS_DEFAULT_REGION"]
    else DefaultRegion
  }

  /** Module load: the region falls back from AWS_REGION to AWS_DEFAULT_REGION to
      "us-east-1" and is used as given; the other three values are stripped. */
  function LoadConfig(vars: map<string, string>): (c: Config)
    ensures c.region == Region(vars)
    ensures c.instanceId == Strip(EnvGet(vars, "INSTANCE_ID"))
    ensures c.snsTopicArn == Strip(EnvGet(vars, "SNS_TOPIC_ARN"))
    ensures c.webhookToken == Strip(EnvGet(vars, "WEBHOOK_TOKEN"))
    ensures c.instanceId == "" <==> Unset(vars, "INSTANCE_ID")
    ensures c.snsTopicArn == "" <==> Unset(vars, "SNS_TOPIC_ARN")
    ensures c.webhookToken == "" <==> Unset(vars, "WEBHOOK_TOKEN")
    ensures Strip(c.instanceId) == c.instanceId && Strip(c.snsTopicArn) == c.snsTopicArn
    ensures Strip(c.webhookToken) == c.webhookToken
  {
    Config(Region(vars), StrippedEnv(vars, "INSTANCE_ID"), StrippedEnv(vars, "SNS_TOPIC_ARN"),
           StrippedEnv(vars, "WEBHOOK_TOKEN"))
  }
}
