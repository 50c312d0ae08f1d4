# Azure Copilot workshop services: admission, caching, configuration and validation logic

This project is a Dafny model of the deterministic core of the workshop's MCP server and
of its validation script. It covers the following:

- **Agent endpoint of `mpc-server/app.py`.**
  - The fixed-window rate limiter (`rate_limit`) and the read-through TTL cache
    (`cache_result`). Each is a class over a map that stands for Redis, with an explicit
    clock in whole seconds.
  - Bearer-token handling (`require_auth`) and the token payload of `generate_token`. A
    JWT verifier is passed in as a function.
  - The request schema (`AgentRequestSchema`) and the routing of
    `AgentProcessor.process_agent_request`.
  - The VM recommendation rules and the `POST /agent/<agent_name>` view, as written and
    as intended (see Findings).
  - `GET /agents`, served through the cache, as written and corrected (see Findings).
- **Configuration loading of `mpc-server/config.py`.** The `Config` defaults, the
  environment step and the Key Vault step. The vault is a partial lookup.
- **The dashboard's recent-events buffer (`mpc-server/dashboard.py`).** Broadcasting keeps
  at most 1000 events. A connecting client gets the last 50.
- **The simplified workshop server, `mpc-server/server.py`.** It answers from a canned
  response table.
- **The result bookkeeping of `test-workshop.py`.**
  - The pass/fail tally kept by `test_result`.
  - The prerequisite check.
  - What `generate_report` derives from the records: the success rate, its threshold and
    tiers, the per-category breakdown and the failed-test list.

Python semantics that matter are written out:

- truthiness of decoded JSON;
- `str.isspace`, `strip()` and `split()`;
- `lower() == "true"`;
- `int()` on decimal text;
- dict insertion order.

Files:

- `wrappers.dfy`, `json.dfy` and `text.dfy` hold these shared pieces.
- There is one module per concern: `rate_limit.dfy`, `response_cache.dfy`,
  `agent_catalog.dfy`, `auth.dfy`, `agent_request.dfy`, `configuration.dfy`,
  `dashboard.dfy`, `workshop_server.dfy` and `workshop_validator.dfy`.

## Model

| member | source | states |
|---|---|---|
| RateLimit.Admit | mpc-server/app.py:158-168 | A key with no live counter is admitted and gets count 1 with a 60-second expiry. A live count at or above the limit is denied, and the store is unchanged. Otherwise the count rises by exactly one and the expiry stays. No other key changes. Counts stay within 1..max(1, limit). |
| RateLimit.ReplayInLiveWindow | mpc-server/app.py:159-166 | Inside a live window that already holds c admissions, the i-th further request is admitted iff c + i < limit. The admitted total is min(n, max(0, limit - c)) and the expiry never moves. |
| RateLimit.WindowAdmitsAtMostLimit | mpc-server/app.py:158-168 | Take a burst inside the 60 seconds after a request that found no counter. Exactly the first max(1, limit) requests are admitted, so with limit >= 1 at most `limit` pass per window. |
| RateLimit.RateLimiter.Check | mpc-server/app.py:154-168 | Without a Redis client the request is admitted and nothing is recorded. Otherwise the decision and the new store are those of `Admit`. The count bound is kept. |
| ResponseCache.Cached | mpc-server/app.py:180-188 | A live entry is returned without running the view, and the store is unchanged. On a miss the view runs once and its result is stored under the key for `ttl` seconds. No other key is touched. |
| ResponseCache.RepeatWithinTtlHits | mpc-server/app.py:181-188 | A second call within the TTL of a miss returns the first result without running the view, and it leaves the store unchanged. |
| ResponseCache.ServesOnlyStoredValue | mpc-server/app.py:181-188 | If a key only ever holds `v`, a call computing `v` returns `v` on a hit and on a miss alike, and the key still holds `v`. |
| ResponseCache.ResultCache.Call | mpc-server/app.py:176-188 | With caching disabled or no client, the view always runs and the store is unchanged. Otherwise the result, whether the view ran and the new store are those of `Cached`. |
| ResponseCache.HitValueAsWritten | mpc-server/app.py:183-187 | A response object is stored through `default=str`, so a hit returns a string. |
| ResponseCache.ResponseObjectHitDiffers | mpc-server/app.py:183-187 | As written, a view returning `jsonify` of an object gets a different body on a cache hit than on the miss that filled it. |
| ResponseCache.PayloadHitMatchesMiss | mpc-server/app.py:183-187 | A JSON-serialisable payload round-trips through the cache unchanged. |
| AgentCatalog.Listing | mpc-server/app.py:566-589 | The listing is an object with an `agents` array holding one entry per agent and a `count` equal to the number of agents. |
| AgentCatalog.ListedAgentsAreRouted | mpc-server/app.py:566-589 | Three agents are listed, with distinct names. The count says 3. Each name is a known agent that the router sends to its own handler, not the generic one. |
| AgentCatalog.ListAgents | mpc-server/app.py:562-589 | The corrected view of the cache finding below, which caches its JSON payload instead of the response object. `GET /agents` then returns the agent listing, whether the cache hits, misses or is disabled. Nothing but the listing is ever stored under its key. With the cache enabled the new store is what `Cached` makes of the old one, with the listing as the value and a 600-second TTL. With the cache disabled the store is unchanged. |
| AgentCatalog.ListAgentsAsWritten | mpc-server/app.py:562-589 | The view as written, run through the cache. A miss or a disabled cache returns the listing. A miss stores the response's repr string. A hit returns that string. The store follows `Cached`. |
| AgentCatalog.RepeatRequestAsWritten | mpc-server/app.py:562-589 | As written, two requests within ten minutes of a miss get different bodies: the listing first, then the repr string. The store ends as the first request's miss left it: the repr string under the key for 600 seconds. |
| Auth.TokenOf | mpc-server/app.py:139-140 | A header starting with "Bearer " is that prefix followed by the token. Any other header is the token verbatim. |
| Auth.Authenticate | mpc-server/app.py:134-145 | A missing or empty header is refused with 401 "No token provided". A token the verifier refuses gets 401 "Invalid token". A non-empty header whose token the verifier accepts is authenticated. The user id then comes from the claims (null when absent) and the tenant from the claims, defaulting to "default". Every rejection is a 401. |
| Auth.IssueToken | mpc-server/app.py:601-612 | A payload is granted iff the body is an object or falsy. Signing it is abstract. The claims are exactly user_id, tenant_id and exp. user_id defaults to "demo-user" and tenant_id to "default". exp is now plus hours·3600, and expires_in is hours·3600. |
| Auth.IssuedTokenAuthenticates | mpc-server/app.py:599-612 | Issue then present: if the verifier accepts the issued claims, sending them as "Bearer <token>" authenticates the user and tenant the body named, or their defaults. |
| Auth.BareTokenPassedVerbatim | mpc-server/app.py:138-143 | A header without the "Bearer " prefix is handed to the verifier unchanged. |
| AgentRequest.LoadRequest | mpc-server/app.py:115-119 | A body loads iff all of the following hold: it is an object with no unknown field; it has a string prompt of at most 10000 characters; context and parameters are objects where present; tenant_id is a string where present. context and parameters default to {} and tenant_id to "default". |
| AgentRequest.PromptOnlyBodyLoads | mpc-server/app.py:115-119 | A body with only an acceptable prompt loads, with every default filled in. |
| AgentRequest.Route | mpc-server/app.py:255-262 | The generic handler is chosen iff the name is not one of the three known agents, and it carries that name. |
| AgentRequest.RouteRoundTrip | mpc-server/app.py:255-262 | The chosen handler serves exactly the requested name. Each dedicated handler is reached by its own name, so no name is refused as unknown. |
| AgentRequest.ProcessAgentRequest | mpc-server/app.py:245-296 | The response echoes the agent name and prompt. Its status is "success" with the handler's text iff the handler completed. Otherwise it is "error" with "Error processing request: " and the message. |
| AgentRequest.ViewReply | mpc-server/app.py:540-556 | The body of `run_agent` answers 400 "Invalid request" iff the schema refuses the body. Otherwise it answers 200 with the processed agent response. |
| AgentRequest.AdmittedRequestFailsAsWritten | mpc-server/app.py:154-168 | As written, the 500 an admitted request gets differs from the reply of the view's body, whatever the agent, body and handler. |
| AgentRequest.RunAgentAsWritten | mpc-server/app.py:154-168 | The request as the decorators are written. The limiter keyed by the client address runs first: a denial is a 429 "Rate limit exceeded", and the limiter store follows `Admit`. Any request let through gets 500 "Internal server error", because the un-awaited coroutine is not a response. |
| AgentRequest.RunAgent | mpc-server/app.py:535-560 | The intended behaviour, the corrected half of the coroutine finding below. The limiter runs as above. A request let through gets the view's reply: 400 for an invalid body, otherwise 200 with the processed agent response. |
| AgentRequest.RecommendationText | mpc-server/app.py:350 | The `"\n".join` of the recommendation lines. The text opens with the first line and closes with the last, and a single recommendation is the whole text. `GenerateVmRecommendations` fixes which lines there are. |
| AgentRequest.GenerateVmRecommendations | mpc-server/app.py:332-350 | Each rule's line appears iff its threshold is crossed: cpu > 80, cpu < 10, memory > 85, disk reads > 50,000,000. The "within normal ranges" line appears iff none is crossed, and then alone. Lines are in rule order, and there are 1 to 3 of them. |
| Configuration.FromEnvironment | mpc-server/config.py:61-88 | The environment step fails iff MCP_PORT, MCP_WORKERS or REDIS_PORT is set to text `int()` refuses. On success it changes only the fields the step assigns, apart from the three flags. `EnvironmentStepFields` gives the value of every field, and `EmptyEnvironmentGivesDefaults` the empty environment. |
| Configuration.EnvironmentStepFields | mpc-server/config.py:61-88 | The environment step succeeds iff the three integer settings parse, and on success it determines every field. Integers hold what `int()` reads. The flags are case-insensitive "true" tests, defaulting to "false" for MCP_DEBUG and to "true" for caching and audit logging. Optional settings become the variable or None. String settings fall back to the previous value. Fields not read from the environment keep their value. |
| Configuration.WithVault | mpc-server/config.py:90-116 | Without a vault URL, or when no client can be made, nothing changes. Otherwise the JWT secret and the storage connection string are fetched only while falsy, and a failed lookup keeps the old value. No other field changes. |
| Configuration.ConfigManager.constructor | mpc-server/config.py:56-57 | The configuration starts as the dataclass defaults. |
| Configuration.ConfigManager.LoadFromEnvironment | mpc-server/config.py:61-88 | The step succeeds iff the environment step described above succeeds. On success the configuration becomes its result. |
| Configuration.ConfigManager.LoadFromKeyVault | mpc-server/config.py:90-116 | The configuration becomes `WithVault` of the previous configuration. |
| Configuration.LoadConfig | mpc-server/config.py:56-59 | The module configuration exists iff the environment step on the defaults succeeds. It then equals that step's result followed by the vault step. |
| Configuration.EmptyEnvironmentGivesDefaults | mpc-server/config.py:13-50 | With an empty environment every field keeps its dataclass default, and the vault step changes nothing. |
| Configuration.TrueFlagSpellings | mpc-server/config.py:66 | `lower() == "true"` holds exactly for the four-letter spellings of "true" in any mix of cases. |
| Configuration.EnvironmentWinsOverVault | mpc-server/config.py:99-113 | A non-empty JWT_SECRET_KEY or storage connection string in the environment survives any vault answer. An unset or empty JWT secret is taken from a successful lookup, and otherwise stays as the environment left it. |
| Configuration.PortReadsBack | mpc-server/config.py:65 | MCP_PORT set to `str(n)` yields port n. |
| Text.ParseInt | mpc-server/config.py:65 | `int()` of a setting's text. Blank text is refused. `ParseIntAccepts` gives the shape of accepted text, and `IntToStringParses` and `PortReadsBack` give the round trip with `str`. |
| Text.ParseIntAccepts | mpc-server/config.py:65 | Accepted text is, after stripping, decimal digits behind at most one sign. A negative value needs a leading '-'. |
| Text.IntToStringParses | mpc-server/config.py:65 | `int(str(n)) == n` for every integer. |
| Text.PrefixBefore | test-workshop.py:96 | The result is the longest prefix without a stop character: `split(sep)[0]`. |
| Dashboard.LastAppend | mpc-server/dashboard.py:70-74 | Appending to the last-n window and dropping the oldest once it exceeds n gives the last n of the longer history. |
| Dashboard.LastOfLast | mpc-server/dashboard.py:36 | The last 50 of the last 1000 events are the last 50 of the whole history. |
| Dashboard.EventBoard.constructor | mpc-server/dashboard.py:18-25 | The buffer starts empty and the statistics start at their initial values. |
| Dashboard.EventBoard.BroadcastEvent | mpc-server/dashboard.py:63-76 | The buffer stays the most recent (at most) 1000 events of the history, in arrival order. The new event is last. Below 1000 nothing is dropped. At 1000 exactly the oldest is dropped. The statistics are unchanged. |
| Dashboard.EventBoard.HandleConnect | mpc-server/dashboard.py:33-36 | The client gets the current statistics and the last min(50, n) buffered events in order, which are also the last 50 of the whole history. |
| WorkshopServer.ResponseText | mpc-server/server.py:14-20 | A known agent gets its canned text. Any other name gets "[Simulated response for <name>]". |
| WorkshopServer.CannedTextsAreNotSimulated | mpc-server/server.py:14-20 | No canned text can be mistaken for the simulated line. |
| WorkshopServer.CannedTextsStartApart | mpc-server/server.py:14-17 | The three canned texts begin with three different symbols, none of them '['. |
| WorkshopServer.ResponseTextIdentifiesAgent | mpc-server/server.py:14-20 | Two names that get the same reply text are the same name. |
| WorkshopServer.RunAgent | mpc-server/server.py:8-27 | A reply exists iff the body is a JSON object. It echoes the agent name and the prompt (defaulting to ""), carries the name's reply text, and always has status "success". |
| WorkshopServer.HealthCheck | mpc-server/server.py:30-31 | The reply is always status "healthy" with version "workshop-1.0". |
| WorkshopValidator.FailedTests | test-workshop.py:604 | The failed list holds exactly the records that did not pass. Its length is the record count minus the passed count. |
| WorkshopValidator.FailedTestsAppend | test-workshop.py:604 | Failed records keep recording order: filtering distributes over concatenation. |
| WorkshopValidator.Validator.constructor | test-workshop.py:36-43 | All counters are zero, there are no records, and the tally invariant holds. |
| WorkshopValidator.Validator.TestResult | test-workshop.py:59-75 | Total rises by one, and exactly one of passed and failed rises by one. One record with the given fields is appended. Warnings are unchanged. total = passed + failed = number of records is kept. |
| WorkshopValidator.Validator.AddWarning | test-workshop.py:248 | A warning raises only the warning count. |
| WorkshopValidator.Validator.CheckPrerequisites | test-workshop.py:80-107 | One record per prerequisite is appended, in order, and earlier records are untouched. The result is false iff some prerequisite other than "jq (optional)" failed or was not found. |
| WorkshopValidator.Validator.RecordChecks | test-workshop.py:91-107 | The loop over any list of checks. It appends one record per check, in order, and leaves earlier records untouched. The result is false iff some check other than the optional one is fatal. |
| WorkshopValidator.PrerequisiteRecord | test-workshop.py:92-105 | The record is named "Prerequisite: <name>" and passes iff the command exited 0. Its details are the first line of the stripped output, "Not found or error", or "Command not found". |
| WorkshopValidator.JqIsOptional | test-workshop.py:100-105 | With docker, python3 and curl found, no failure is fatal, whatever jq gives. |
| WorkshopValidator.SuccessRate | test-workshop.py:564 | The rate is 0 when no test ran. Otherwise rate·total = passed·100, and the rate lies within 0..100. |
| WorkshopValidator.RateAtLeast | test-workshop.py:564 | Comparing the rate with a threshold is the exact comparison passed·100 >= threshold·total. |
| WorkshopValidator.SucceedsExactly | test-workshop.py:632 | The report succeeds iff some test ran and passed·100 >= 85·total. |
| WorkshopValidator.TierOf | test-workshop.py:613-620 | The tiers are the intervals >= 95, [85, 95), [70, 85) and < 70, each iff its interval, so they are mutually exclusive. |
| WorkshopValidator.TierOfSuccess | test-workshop.py:613-632 | The returned success holds iff the tier is Excellent or Good. |
| WorkshopValidator.CategoryOf | test-workshop.py:588 | The category of a test name. With a ':' it always exists, holds no ':' and is shorter than the name. Without one it is a non-empty word of the name, where it exists. `ColonCategory`, `WordCategory`, `BlankHasNoCategory` and `FirstWordAfterSpace` pin it down exactly. |
| WorkshopValidator.FirstWordAfterSpace | test-workshop.py:588 | `split()[0]` is the text after the leading whitespace, up to the next whitespace. |
| WorkshopValidator.ColonCategory | test-workshop.py:588 | With a ':' in the name, the category is the text before the first ':'. |
| WorkshopValidator.BlankHasNoCategory | test-workshop.py:588 | Without a ':', a name has no category (`split()[0]` raises) iff it is all whitespace. |
| WorkshopValidator.WordCategory | test-workshop.py:588 | Without a ':', the category is the non-empty run of non-whitespace starting at the first non-whitespace character, ending at whitespace or the end of the name. |
| WorkshopValidator.DistinctInOrder | test-workshop.py:589-590 | "Add if absent" keys: the same elements as the input, each once. |
| WorkshopValidator.BreakdownOf | test-workshop.py:586-594 | The dict the loop builds, or none where a name has no category. Each category is listed once, and the dict's keys are exactly the listed categories. `BreakdownDefined`, `BreakdownOrder`, `BreakdownTallies` and `BreakdownTotal` characterise it. |
| WorkshopValidator.BreakdownDefined | test-workshop.py:586-594 | The breakdown exists iff every test name has a category. |
| WorkshopValidator.BreakdownOrder | test-workshop.py:586-590 | The categories are listed once each, by first appearance, and the dict holds exactly the listed categories. |
| WorkshopValidator.BreakdownTallies | test-workshop.py:586-594 | Each category's passed and failed counts are those of its own records. |
| WorkshopValidator.BreakdownTotal | test-workshop.py:586-598 | The per-category passed + failed counts sum to the number of records. |
| WorkshopValidator.CategoryBreakdown | test-workshop.py:586-594 | The loop builds the breakdown described above, or fails where a name has no category. |
| WorkshopValidator.Validator.GenerateReport | test-workshop.py:552-632 | The report fails iff some name has no category. Otherwise it carries the tally, the warning count, the success rate and the tier of that rate. It also carries the breakdown (whose counts sum to the total) and the failed records (as many as the failed count). It succeeds iff total > 0 and passed·100 >= 85·total, which is iff the tier is Excellent or Good. |

## Left out

- **I/O is not modelled.** This covers HTTP and framework plumbing (Flask routing,
  `jsonify`, CORS, Swagger, error handlers), SocketIO emits, Prometheus metrics, structlog
  audit logging, printing and coloured output. Views are modelled as functions or
  methods returning a status and a record.
- **Execution times, timestamps and request ids are left out.** The code reads them from
  the clock or `uuid4`. Timestamps that are stored are passed in as parameters.
- **Redis is an in-memory map with an integer clock.** Connection setup and the
  non-atomic get-then-incr race between concurrent requests are not modelled.
- **JWT encoding and decoding are abstract functions.** So is Python's `hash()` in the
  cache key, which is taken as given. Auth.IssueToken describes the payload that is
  granted, not its signing. With the default `JWT_SECRET_KEY` of None
  (mpc-server/config.py:34) and no vault, `jwt.encode` at mpc-server/app.py:611 raises
  instead.
- **Azure SDK calls, Key Vault clients, Blob Storage and the agents' long output
  templates are left out.** The handler an agent name routes to is an abstract function
  that returns a text or raises.
- **`mpc-server/mcp_server.py` and `mpc-server/test_mcp_server.py` are not part of this
  model.** Neither are `update_system_stats` and its background thread, nor the sample
  projects and client templates.
- **Floating point is replaced by exact reals.** The success rate is compared exactly.
- **Three `test-workshop.py` details are left out:** `statistics.mean` over response
  times, the 90/70 colour bands of the printed rates, and the recommendation bullets
  printed after the tier.
- **The validator's HTTP, file and socket probes are not modelled.** Only
  `test_result`, the warning counter and `check_prerequisites` feed the model's records.
- Text.ParseInt: Python's `int()` also accepts digit-group underscores and non-ASCII
  decimal digits. The model parses ASCII digits only.
- Configuration.ConfigManager.LoadFromEnvironment: when an `int()` raises, the source
  leaves the fields assigned before the failure in place. The model's ensures says
  nothing about the configuration on that path. The module import fails there anyway.
- AgentRequest.RunAgent: the 400 reply's `details` (marshmallow's error messages) and
  the 500 reply for unexpected exceptions are not modelled. `require_auth` is modelled
  on its own, because the source applies it to no route.
- AgentRequest.LoadRequest: the schema is assumed to reject unknown fields, which is
  marshmallow's default.
- AgentRequest.GenerateVmRecommendations: the 1-to-3 line count is stated on the list of
  recommendations. The text returned is `RecommendationText` of that list, joined
  with "\n", and no lemma counts its newlines.
- WorkshopValidator.Validator.CheckPrerequisites: all four records share one timestamp,
  where the source takes a fresh `datetime.now()` per record. Exceptions other than
  `FileNotFoundError` are not modelled. In the source they propagate.
- WorkshopValidator.Validator.GenerateReport: the start time, duration and average
  response time are not part of the report.

## Findings

| source | as written | input that shows it | evidently intended | confidence | as-written member | corrected member |
|---|---|---|---|---|---|---|
| mpc-server/app.py:154-168 | The `rate_limit` wrapper is a plain function. It returns `f(*args, **kwargs)` at mpc-server/app.py:156 and 168, where `f` is the `async def run_agent` (mpc-server/app.py:536). That only creates a coroutine, which nothing awaits, and Flask cannot turn a coroutine into a response. | Any `POST /agent/onboardingAgent` with body `{"prompt": "hi"}` that the limiter admits gets 500 "Internal server error" instead of 200. A body without a prompt gets 500 instead of 400. | The wrapper awaits the view, or the view is synchronous. Admitted requests then get 400 for a refused body and 200 with the agent's response otherwise. | not executed | AgentRequest.RunAgentAsWritten | AgentRequest.RunAgent |
| mpc-server/app.py:183-187 | `cache_result` stores `json.dumps(result, default=str)` and returns `json.loads(cached)` on a hit. `list_agents` (mpc-server/app.py:589) returns a Flask response object, which `default=str` stores as its repr string. | Two `GET /agents` requests within 600 seconds with caching enabled. The second gets a string such as "<Response 1234 bytes [200 OK]>" instead of the agent listing. | A hit returns the same listing as the miss that filled the cache: cache the JSON payload, not the response object. | not executed | AgentCatalog.RepeatRequestAsWritten | AgentCatalog.ListAgents |
