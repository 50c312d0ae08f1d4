/**
 * `GET /agents` (`list_agents` in mpc-server/app.py) behind the read-through cache with a
 * ten-minute TTL, in two forms. As written, the view returns a Flask response object,
 * which the cache stores through `json.dumps(..., default=str)` as its repr string, so a
 * hit serves that string (`ListAgentsAsWritten`). Corrected, the view's JSON payload is
 * what gets cached, and the client gets the listing on a miss and on a hit alike
 * (`ListAgents`). The key is the one `cache_result` derives for the view.
 */
module AgentCatalog {
  import Json
  import ResponseCache
  import AgentRequest

  /** `@cache_result(ttl=600)`. */
  const ListingTtl: int := 600

  function Strings(items: seq<string>): (v: Json.Value)
    ensures v.Array? && |v.items| == |items|
  {
    Json.Array(seq(|items|, i requires 0 <= i < |items| => Json.Str(items[i])))
  }

  /** One entry of the `agents` list. */
  datatype AgentInfo = AgentInfo(name: string, description: string, capabilities: seq<string>,
                                 requiredContext: seq<string>, exampleUsage: string)

  /** The three agents the view lists, in its order. */
  const Agents: seq<AgentInfo> := [
      AgentInfo("azureVmMetricsAgent",
        "Analyzes Azure VM performance metrics and provides optimization recommendations",
        ["metrics_analysis", "performance_optimization", "cost_analysis"],
        ["resource_group", "vm_name"],
        "Check CPU and memory usage for VM 'web-server-01' in resource group 'production'"),
      AgentInfo("terraformDocsAgent",
        "Generates comprehensive documentation for Terraform infrastructure code",
        ["documentation_generation", "cost_estimation", "security_analysis"],
        ["project_path"],
        "Generate documentation for the Terraform code in the './infrastructure' directory"),
      AgentInfo("onboardingAgent",
        "Provides personalized onboarding guidance for new team members",
        ["personalized_guidance", "checklist_generation", "resource_links"],
        ["role", "team"],
        "Help me get started as a new DevOps engineer on the platform team")]

  function AgentEntry(a: AgentInfo): Json.Value
  {
    Json.Object(map[
      "name" := Json.Str(a.name),
      "description" := Json.Str(a.description),
      "capabilities" := Strings(a.capabilities),
      "required_context" := Strings(a.requiredContext),
      "example_usage" := Json.Str(a.exampleUsage)])
  }

  /** The view's payload: the agents and their count. */
  function Listing(agents: seq<AgentInfo>): (v: Json.Value)
    ensures v.Object? && "agents" in v.fields && "count" in v.fields
    ensures v.fields["agents"].Array? && |v.fields["agents"].items| == |agents|
    ensures v.fields["count"] == Json.Number(|agents| as real)
  {
    Json.Object(map["agents" := Json.Array(seq(|agents|, i requires 0 <= i < |agents| => AgentEntry(agents[i]))),
                    "count" := Json.Number(|agents| as real)])
  }

  /**
   * The listing agrees with the router: it has one entry per agent, its count says
   * so, and each listed name is dispatched to that agent's own handler.
   */
  lemma ListedAgentsAreRouted()
    ensures Listing(Agents).fields["count"] == Json.Number(|Agents| as real)
    ensures forall i :: 0 <= i < |Agents| ==> Agents[i].name in AgentRequest.KnownAgents
    ensures forall i :: 0 <= i < |Agents| ==> !AgentRequest.Route(Agents[i].name).GenericHandler?
    ensures forall i, j :: 0 <= i < j < |Agents| ==> Agents[i].name != Agents[j].name
  {
    assert "terraformDocsAgent" != "azureVmMetricsAgent";
    assert "onboardingAgent" != "azureVmMetricsAgent";
    assert "onboardingAgent" != "terraformDocsAgent";
  }

  /** Nothing but the listing is ever stored under the view's key. */
  ghost predicate OnlyListingUnder(s: ResponseCache.Store, key: string)
  {
    key in s ==> s[key].value == Listing(Agents)
  }

  /**
   * One `GET /agents` with the corrected view, which caches its payload: whether the
   * cache hits, misses or is switched off, the body is the agent listing, and the cache
   * keeps holding nothing else under the view's key.
   */
  method ListAgents(cache: ResponseCache.ResultCache, key: string, now: int) returns (body: Json.Value)
    requires OnlyListingUnder(cache.store, key)
    modifies cache
    ensures OnlyListingUnder(cache.store, key)
    ensures body == Listing(Agents)
    ensures cache.enabled ==>
      cache.store == ResponseCache.Cached(old(cache.store), key, now, ListingTtl, Listing(Agents)).store
    ensures !cache.enabled ==> cache.store == old(cache.store)
  {
    var listing := Listing(Agents);
    if cache.enabled {
      ResponseCache.ServesOnlyStoredValue(cache.store, key, now, ListingTtl, listing);
    }
    var invoked;
    body, invoked := cache.Call(key, now, ListingTtl, listing);
  }

  /** Nothing but the stored form of the response object, its repr, is kept under the key. */
  ghost predicate OnlyReprUnder(s: ResponseCache.Store, key: string, repr: string)
  {
    key in s ==> s[key].value == Json.Str(repr)
  }

  /**
   * One `GET /agents` as written: the view returns `jsonify(...)`, whose `str()` is
   * `repr`. A miss (or a disabled cache) hands the client the response object, that is
   * the listing, and stores `repr`; a hit hands the client the stored string.
   */
  method ListAgentsAsWritten(cache: ResponseCache.ResultCache, key: string, now: int, repr: string)
    returns (body: Json.Value)
    requires OnlyReprUnder(cache.store, key, repr)
    modifies cache
    ensures OnlyReprUnder(cache.store, key, repr)
    ensures cache.enabled && ResponseCache.Live(old(cache.store), key, now) ==> body == Json.Str(repr)
    ensures !(cache.enabled && ResponseCache.Live(old(cache.store), key, now)) ==> body == Listing(Agents)
    ensures cache.enabled ==>
      cache.store == ResponseCache.Cached(old(cache.store), key, now, ListingTtl, Json.Str(repr)).store
    ensures !cache.enabled ==> cache.store == old(cache.store)
  {
    var response := ResponseCache.FlaskResponse(Listing(Agents), repr);
    var result, invoked := cache.Call(key, now, ListingTtl, ResponseCache.HitValueAsWritten(response));
    body := if invoked then ResponseCache.BodyOnMiss(response) else result;
  }

  /**
   * As written, two requests within ten minutes of a miss get different bodies: the
   * first the listing, the second the response object's repr string. Only the miss
   * writes to the cache; the hit leaves it as the miss left it.
   */
  method RepeatRequestAsWritten(cache: ResponseCache.ResultCache, key: string, t1: int, t2: int, repr: string)
    returns (first: Json.Value, second: Json.Value)
    requires cache.enabled && OnlyReprUnder(cache.store, key, repr)
    requires !ResponseCache.Live(cache.store, key, t1) && t2 < t1 + ListingTtl
    modifies cache
    ensures first == Listing(Agents) && second == Json.Str(repr) && first != second
    ensures cache.store == ResponseCache.Cached(old(cache.store), key, t1, ListingTtl, Json.Str(repr)).store
  {
    first := ListAgentsAsWritten(cache, key, t1, repr);
    second := ListAgentsAsWritten(cache, key, t2, repr);
  }
}
