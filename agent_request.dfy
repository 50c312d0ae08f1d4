/**
 * The agent endpoint of mpc-server/app.py: the request schema, the name-based routing of
 * `AgentProcessor.process_agent_request`, the VM recommendation rules, and the
 * `POST /agent/<agent_name>` view behind its rate limiter. The agents' own output (the
 * long formatted texts, the Azure calls) is opaque: `run` stands for the handler chosen.
 */
module AgentRequest {
  import opened Wrappers
  import Json
  import Text
  import RateLimit

  /** `AgentRequestSchema`: `validate=lambda x: len(x) <= 10000` on the prompt. */
  const MaxPromptLength: int := 10000

  const SchemaFields: set<string> := {"prompt", "context", "parameters", "tenant_id"}

  /** A request body the schema accepted, with its defaults filled in. */
  datatype AgentRequest = AgentRequest(
    prompt: string,
    context: map<string, Json.Value>,
    parameters: map<string, Json.Value>,
    tenantId: string)

  /** A `fields.Dict` with `missing={}`: absent gives `{}`, present must be an object. */
  function DictField(fields: map<string, Json.Value>, name: string): Option<map<string, Json.Value>>
  {
    if name !in fields then Some(map[])
    else if fields[name].Object? then Some(fields[name].fields)
    else None
  }

  /**
   * `AgentRequestSchema().load(request.json or {})`. The body must be an object with no
   * field outside the schema (marshmallow's default is to reject unknown fields), a
   * string `prompt` of at most 10000 characters, and, where present, objects for
   * `context` and `parameters` and a string `tenant_id`. `None` is a `ValidationError`.
   */
  function LoadRequest(body: Json.Value): (r: Option<AgentRequest>)
    ensures r.Some? <==>
      && body.Object?
      && body.fields.Keys <= SchemaFields
      && "prompt" in body.fields && body.fields["prompt"].Str?
      && |body.fields["prompt"].s| <= MaxPromptLength
      && ("context" in body.fields ==> body.fields["context"].Object?)
      && ("parameters" in body.fields ==> body.fields["parameters"].Object?)
      && ("tenant_id" in body.fields ==> body.fields["tenant_id"].Str?)
    ensures r.Some? ==> body.fields["prompt"] == Json.Str(r.value.prompt)
    ensures r.Some? ==>
      (if "context" in body.fields then body.fields["context"] == Json.Object(r.value.context)
       else r.value.context == map[])
    ensures r.Some? ==>
      (if "parameters" in body.fields then body.fields["parameters"] == Json.Object(r.value.parameters)
       else r.value.parameters == map[])
    ensures r.Some? ==>
      (if "tenant_id" in body.fields then body.fields["tenant_id"] == Json.Str(r.value.tenantId)
       else r.value.tenantId == "default")
  {
    if !body.Object? || !(body.fields.Keys <= SchemaFields) then None
    else
      var f := body.fields;
      if "prompt" !in f || !f["prompt"].Str? || |f["prompt"].s| > MaxPromptLength then None
      else if "tenant_id" in f && !f["tenant_id"].Str? then None
      else
        match (DictField(f, "context"), DictField(f, "parameters"))
        case (Some(context), Some(parameters)) =>
          Some(AgentRequest(f["prompt"].s, context, parameters,
                            if "tenant_id" in f then f["tenant_id"].s else "default"))
        case _ => None
  }

  /** A body holding only a prompt of acceptable length loads with every default. */
  lemma PromptOnlyBodyLoads(prompt: string)
    requires |prompt| <= MaxPromptLength
    ensures LoadRequest(Json.Object(map["prompt" := Json.Str(prompt)]))
         == Some(AgentRequest(prompt, map[], map[], "default"))
  {
    var f := map["prompt" := Json.Str(prompt)];
    assert f.Keys == {"prompt"};
  }

  /** Handlers of `process_agent_request`; every unknown name goes to the generic one. */
  datatype Handler =
    | VmMetricsHandler
    | TerraformDocsHandler
    | OnboardingHandler
    | GenericHandler(name: string)

  const KnownAgents: set<string> := {"azureVmMetricsAgent", "terraformDocsAgent", "onboardingAgent"}

  /** The if/elif chain on the agent name. */
  function Route(agentName: string): (h: Handler)
    ensures h.GenericHandler? <==> agentName !in KnownAgents
    ensures h.GenericHandler? ==> h.name == agentName
  {
    if agentName == "azureVmMetricsAgent" then VmMetricsHandler
    else if agentName == "terraformDocsAgent" then TerraformDocsHandler
    else if agentName == "onboardingAgent" then OnboardingHandler
    else GenericHandler(agentName)
  }

  /** The agent name each handler serves. */
  function HandlerName(h: Handler): string
  {
    match h
    case VmMetricsHandler => "azureVmMetricsAgent"
    case TerraformDocsHandler => "terraformDocsAgent"
    case OnboardingHandler => "onboardingAgent"
    case GenericHandler(name) => name
  }

  /**
   * Routing never loses the name: the handler chosen serves exactly the requested name,
   * and every handler other than a generic one shadowing a known name is reached by its
   * own name. So no name is ever refused as unknown.
   */
  lemma RouteRoundTrip(agentName: string, h: Handler)
    ensures HandlerName(Route(agentName)) == agentName
    ensures !(h.GenericHandler? && h.name in KnownAgents) ==> Route(HandlerName(h)) == h
  {
    assert "terraformDocsAgent" != "azureVmMetricsAgent";
    assert "onboardingAgent" != "azureVmMetricsAgent";
    assert "onboardingAgent" != "terraformDocsAgent";
  }

  /** What a handler did: returned its text, or raised an exception with a message. */
  datatype HandlerOutcome = Completed(text: string) | Raised(message: string)

  /** The response record (execution time, timestamp and request id left out). */
  datatype AgentResponse = AgentResponse(agent: string, prompt: string, result: string, status: string)

  /**
   * `process_agent_request`: route by name, run the handler on the prompt and context,
   * and report "success" with its text, or "error" with the exception's message. Both
   * forms echo the agent name and the prompt.
   */
  function ProcessAgentRequest(agentName: string, req: AgentRequest,
                               run: (Handler, string, map<string, Json.Value>) -> HandlerOutcome): (r: AgentResponse)
    ensures r.agent == agentName && r.prompt == req.prompt
    ensures r.status == "success" <==> run(Route(agentName), req.prompt, req.context).Completed?
    ensures r.status == "success" ==> r.result == run(Route(agentName), req.prompt, req.context).text
    ensures r.status != "success" ==>
      r.status == "error"
      && r.result == "Error processing request: " + run(Route(agentName), req.prompt, req.context).message
  {
    match run(Route(agentName), req.prompt, req.context)
    case Completed(text) => AgentResponse(agentName, req.prompt, text, "success")
    case Raised(message) => AgentResponse(agentName, req.prompt, "Error processing request: " + message, "error")
  }

  datatype ReplyBody = ErrorBody(error: string) | AgentBody(response: AgentResponse)

  datatype HttpReply = HttpReply(status: int, body: ReplyBody)

  /**
   * What the body of `run_agent` answers once it runs: 400 "Invalid request" when the
   * schema refuses the body, otherwise 200 with the processed response. A handler
   * failure is reported inside the 200 reply with status "error".
   */
  function ViewReply(agentName: string, body: Json.Value,
                     run: (Handler, string, map<string, Json.Value>) -> HandlerOutcome): (reply: HttpReply)
    ensures reply.status == 400 || reply.status == 200
    ensures reply.status == 400 <==> LoadRequest(body).None?
    ensures reply.status == 400 ==> reply.body == ErrorBody("Invalid request")
    ensures reply.status == 200 ==>
      reply.body == AgentBody(ProcessAgentRequest(agentName, LoadRequest(body).value, run))
  {
    match LoadRequest(body)
    case None => HttpReply(400, ErrorBody("Invalid request"))
    case Some(request) => HttpReply(200, AgentBody(ProcessAgentRequest(agentName, request, run)))
  }

  /**
   * The reply to an admitted request as the decorators are written: the synchronous
   * `rate_limit` wrapper returns `run_agent(...)` without awaiting it, so the view hands
   * Flask a coroutine, which is not a valid response; the resulting error goes to the
   * 500 handler.
   */
  const UnawaitedCoroutineReply: HttpReply := HttpReply(500, ErrorBody("Internal server error"))

  /** As written, no admitted request ever gets the reply the view's body would give. */
  lemma AdmittedRequestFailsAsWritten(agentName: string, body: Json.Value,
                                      run: (Handler, string, map<string, Json.Value>) -> HandlerOutcome)
    ensures UnawaitedCoroutineReply.status == 500
    ensures UnawaitedCoroutineReply != ViewReply(agentName, body, run)
  {
  }

  /**
   * `POST /agent/<agent_name>` as written: the rate limiter keyed by the client address
   * runs first (429); any request it lets through, with or without a Redis client, gets
   * the 500 of the un-awaited coroutine, and the schema and the agent never run.
   */
  method RunAgentAsWritten(limiter: RateLimit.RateLimiter, remoteAddr: string, now: int,
                           agentName: string, body: Json.Value,
                           run: (Handler, string, map<string, Json.Value>) -> HandlerOutcome)
    returns (reply: HttpReply)
    requires limiter.Valid()
    modifies limiter
    ensures limiter.Valid()
    ensures !limiter.connected ==> limiter.store == old(limiter.store) && reply.status != 429
    ensures limiter.connected ==>
      limiter.store == RateLimit.Admit(old(limiter.store), remoteAddr, now, limiter.limit).store
      && (reply.status == 429 <==>
          RateLimit.Admit(old(limiter.store), remoteAddr, now, limiter.limit).decision == RateLimit.Denied)
    ensures reply.status == 429 ==> reply.body == ErrorBody("Rate limit exceeded")
    ensures reply.status != 429 ==> reply == UnawaitedCoroutineReply
  {
    var decision := limiter.Check(remoteAddr, now);
    if decision == RateLimit.Denied {
      return HttpReply(429, ErrorBody("Rate limit exceeded"));
    }
    reply := UnawaitedCoroutineReply;
  }

  /**
   * `POST /agent/<agent_name>` as intended: the rate limiter keyed by the client address
   * runs first (429), then the view's body: the schema (400 "Invalid request"), then the
   * agent (200). This is the behaviour once the wrapper awaits the view.
   */
  method RunAgent(limiter: RateLimit.RateLimiter, remoteAddr: string, now: int,
                  agentName: string, body: Json.Value,
                  run: (Handler, string, map<string, Json.Value>) -> HandlerOutcome)
    returns (reply: HttpReply)
    requires limiter.Valid()
    modifies limiter
    ensures limiter.Valid()
    ensures !limiter.connected ==> limiter.store == old(limiter.store) && reply.status != 429
    ensures limiter.connected ==>
      limiter.store == RateLimit.Admit(old(limiter.store), remoteAddr, now, limiter.limit).store
      && (reply.status == 429 <==>
          RateLimit.Admit(old(limiter.store), remoteAddr, now, limiter.limit).decision == RateLimit.Denied)
    ensures reply.status == 429 ==> reply.body == ErrorBody("Rate limit exceeded")
    ensures reply.status != 429 ==> reply == ViewReply(agentName, body, run)
  {
    var decision := limiter.Check(remoteAddr, now);
    if decision == RateLimit.Denied {
      return HttpReply(429, ErrorBody("Rate limit exceeded"));
    }
    reply := ViewReply(agentName, body, run);
  }

  /** The readings `_generate_vm_recommendations` looks at. */
  datatype VmMetrics = VmMetrics(cpuPercent: real, memoryPercent: real, diskReadBytes: int)

  /** The recommendation lines, in the order the rules are tried. */
  datatype Advice = ScaleUp | Downsize | HighMemory | HighDiskRead | WithinNormalRanges

  function AdviceLine(a: Advice): string
  {
    match a
    case ScaleUp => "• Consider scaling up the VM size or implementing auto-scaling"
    case Downsize => "• VM appears underutilized - consider downsizing to reduce costs"
    case HighMemory => "• Memory usage is high - monitor for memory leaks or increase VM memory"
    case HighDiskRead => "• High disk read activity detected - consider premium storage for better performance"
    case WithinNormalRanges => "• VM metrics are within normal ranges - no immediate action required"
  }

  function RuleOrder(a: Advice): nat
  {
    match a
    case ScaleUp => 0
    case Downsize => 1
    case HighMemory => 2
    case HighDiskRead => 3
    case WithinNormalRanges => 4
  }

  function Lines(advice: seq<Advice>): (r: seq<string>)
    ensures |r| == |advice|
    ensures forall i :: 0 <= i < |advice| ==> r[i] == AdviceLine(advice[i])
  {
    seq(|advice|, i requires 0 <= i < |advice| => AdviceLine(advice[i]))
  }

  /**
   * `"\n".join(recommendations)`: the first recommendation opens the text, the last
   * closes it, and a single recommendation is the whole text.
   */
  function RecommendationText(advice: seq<Advice>): (t: string)
    ensures advice != [] ==> Text.StartsWith(t, AdviceLine(advice[0]))
    ensures advice != [] ==>
      var last := AdviceLine(advice[|advice| - 1]);
      |last| <= |t| && t[|t| - |last|..] == last
    ensures |advice| == 1 ==> t == AdviceLine(advice[0])
  {
    Text.Join(Lines(advice), "\n")
  }

  /** 50,000,000 bytes read. */
  const DiskReadThreshold: int := 50000000

  /**
   * `_generate_vm_recommendations`: one line per rule that fires (CPU above 80 or, failing
   * that, below 10; memory above 85; disk reads above 50 MB), in rule order, or the single
   * "within normal ranges" line when none fires. The text returned is
   * `RecommendationText` of the list built here.
   */
  method GenerateVmRecommendations(m: VmMetrics) returns (advice: seq<Advice>)
    ensures 1 <= |advice| <= 3
    ensures ScaleUp in advice <==> m.cpuPercent > 80.0
    ensures Downsize in advice <==> m.cpuPercent < 10.0
    ensures HighMemory in advice <==> m.memoryPercent > 85.0
    ensures HighDiskRead in advice <==> m.diskReadBytes > DiskReadThreshold
    ensures WithinNormalRanges in advice <==>
      10.0 <= m.cpuPercent <= 80.0 && m.memoryPercent <= 85.0 && m.diskReadBytes <= DiskReadThreshold
    ensures WithinNormalRanges in advice ==> advice == [WithinNormalRanges]
    ensures forall i, j :: 0 <= i < j < |advice| ==> RuleOrder(advice[i]) < RuleOrder(advice[j])
  {
    var cpu: seq<Advice> := [];
    if m.cpuPercent > 80.0 {
      cpu := [ScaleUp];
    } else if m.cpuPercent < 10.0 {
      cpu := [Downsize];
    }
    var memory: seq<Advice> := [];
    if m.memoryPercent > 85.0 {
      memory := [HighMemory];
    }
    var disk: seq<Advice> := [];
    if m.diskReadBytes > DiskReadThreshold {
      disk := [HighDiskRead];
    }
    advice := cpu + memory + disk;
    if advice == [] {
      advice := [WithinNormalRanges];
    }
  }
}
