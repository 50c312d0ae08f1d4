/**
 * The simplified workshop server, mpc-server/server.py: `POST /agent/<agent_name>` answers
 * a canned text per known agent and a simulated line for any other name; `GET /health`
 * answers a fixed record.
 */
module WorkshopServer {
  import opened Wrappers
  import Json
  import Text

  // Each canned text is written as its leading symbol followed by the rest.
  const VmMetricsText: string :=
    "✅" + " VM Metrics Analysis:\nCPU: 45%, Memory: 62%, Disk I/O: Normal\nRecommendation: Monitor during peak hours"
  const TerraformDocsText: string :=
    "📋" + " Generated Terraform Documentation:\n# Infrastructure Overview\nResources: 5 VMs, 2 Load Balancers\nEstimated cost: $340/month"
  const OnboardingText: string :=
    "🎯" + " Welcome! Here's your onboarding checklist:\n1. Setup Azure CLI\n2. Clone repositories\n3. Configure VS Code"

  /** The `responses` table. */
  const Responses: map<string, string> := map[
    "azureVmMetricsAgent" := VmMetricsText,
    "terraformDocsAgent" := TerraformDocsText,
    "onboardingAgent" := OnboardingText]

  const SimulatedPrefix: string := "[Simulated response for "

  /** `responses.get(agent_name, f"[Simulated response for {agent_name}]")`. */
  function ResponseText(agentName: string): (t: string)
    ensures agentName in Responses ==> t == Responses[agentName]
    ensures agentName !in Responses ==> t == SimulatedPrefix + agentName + "]"
  {
    if agentName in Responses then Responses[agentName] else SimulatedPrefix + agentName + "]"
  }

  /** The canned texts do not begin with '[' as the simulated line does. */
  lemma CannedTextsAreNotSimulated(name: string)
    requires name in Responses
    ensures Responses[name][0] != '['
  {
    CannedTextsStartApart(name, name);
  }

  /** The three canned texts begin with three different symbols. */
  lemma CannedTextsStartApart(a: string, b: string)
    requires a in Responses && b in Responses
    ensures Responses[a][0] != '['
    ensures Responses[a][0] == Responses[b][0] ==> a == b
  {
    assert VmMetricsText[0] == '✅';
    assert TerraformDocsText[0] == '📋';
    assert OnboardingText[0] == '🎯';
  }

  /** The reply text identifies the agent: two names that get the same text are the same name. */
  lemma ResponseTextIdentifiesAgent(a: string, b: string)
    requires ResponseText(a) == ResponseText(b)
    ensures a == b
  {
    if a !in Responses && b !in Responses {
      var ta := SimulatedPrefix + a + "]";
      var tb := SimulatedPrefix + b + "]";
      assert |a| == |b|;
      assert a == ta[|SimulatedPrefix|..|ta| - 1];
      assert b == tb[|SimulatedPrefix|..|tb| - 1];
    } else if a in Responses && b !in Responses {
      assert ResponseText(b)[0] == '[';
      CannedTextsAreNotSimulated(a);
    } else if a !in Responses && b in Responses {
      assert ResponseText(a)[0] == '[';
      CannedTextsAreNotSimulated(b);
    } else {
      CannedTextsStartApart(a, b);
    }
  }

  datatype AgentReply = AgentReply(agent: string, prompt: Json.Value, result: string, status: string)

  /**
   * `run_agent`: the prompt is echoed (the empty string when absent) beside the agent
   * name and its text, always with status "success". `None` when the JSON body is not
   * an object, where `data.get` raises and the request fails.
   */
  function RunAgent(agentName: string, body: Json.Value): (r: Option<AgentReply>)
    ensures r.Some? <==> body.Object?
    ensures r.Some? ==> r.value.agent == agentName && r.value.status == "success"
    ensures r.Some? ==> r.value.result == ResponseText(agentName)
    ensures r.Some? && "prompt" in body.fields ==> r.value.prompt == body.fields["prompt"]
    ensures r.Some? && "prompt" !in body.fields ==> r.value.prompt == Json.Str("")
  {
    if !body.Object? then None
    else Some(AgentReply(agentName, Json.Get(body.fields, "prompt", Json.Str("")), ResponseText(agentName), "success"))
  }

  datatype Health = Health(status: string, version: string)

  /** `health_check`: always healthy, version "workshop-1.0". */
  function HealthCheck(): (h: Health)
    ensures h.status == "healthy" && h.version == "workshop-1.0"
  {
    Health("healthy", "workshop-1.0")
  }
}
