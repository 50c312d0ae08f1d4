/**
 * The read-through cache decorator `cache_result` of mpc-server/app.py. Redis is
 * replaced by a map from cache key to a stored value and its absolute expiry time.
 * The key itself (`cache:<view name>:<hash of the arguments>`) is taken as given.
 * Values are kept in decoded form; the JSON text Redis would hold is never empty, so
 * the `if cached:` test succeeds for every key that has not expired.
 */
module ResponseCache {
  import Json

  datatype Entry = Entry(value: Json.Value, expiry: int)

  type Store = map<string, Entry>

  /** The outcome of one decorated call: what the caller gets, whether the view ran. */
  datatype CallResult = CallResult(result: Json.Value, invoked: bool, store: Store)

  predicate Live(s: Store, key: string, now: int)
  {
    key in s && now < s[key].expiry
  }

  /**
   * One call of a cached view whose own result would be `computed`: a live entry is
   * returned without running the view; otherwise the view runs once and its result is
   * stored for `ttl` seconds. Only `key` is ever written.
   */
  function Cached(s: Store, key: string, now: int, ttl: int, computed: Json.Value): (r: CallResult)
    ensures Live(s, key, now) ==> !r.invoked && r.result == s[key].value && r.store == s
    ensures !Live(s, key, now) ==> r.invoked && r.result == computed
    ensures !Live(s, key, now) ==> key in r.store && r.store[key] == Entry(computed, now + ttl)
    ensures forall k :: k != key ==> (k in r.store <==> k in s)
    ensures forall k :: k != key && k in s ==> r.store[k] == s[k]
  {
    if Live(s, key, now) then CallResult(s[key].value, false, s)
    else CallResult(computed, true, s[key := Entry(computed, now + ttl)])
  }

  /**
   * A second call with the same key less than `ttl` seconds after a miss returns the
   * first call's result, does not run the view again and leaves the store as it was.
   */
  lemma RepeatWithinTtlHits(s: Store, key: string, t1: int, t2: int, ttl: int,
                            v1: Json.Value, v2: Json.Value)
    requires !Live(s, key, t1) && t2 < t1 + ttl
    ensures var first := Cached(s, key, t1, ttl, v1);
      var second := Cached(first.store, key, t2, ttl, v2);
      second.result == first.result == v1 && !second.invoked && second.store == first.store
  {
  }

  /** A key under which only `v` is ever stored serves `v` on a hit and on a miss alike. */
  lemma ServesOnlyStoredValue(s: Store, key: string, now: int, ttl: int, v: Json.Value)
    requires key in s ==> s[key].value == v
    ensures Cached(s, key, now, ttl, v).result == v
    ensures var r := Cached(s, key, now, ttl, v); key in r.store ==> r.store[key].value == v
  {
  }

  /**
   * The cache as one process sees it. `enabled` is false when there is no Redis
   * client or caching is switched off; the view then always runs and nothing is kept.
   */
  class ResultCache {
    const enabled: bool
    var store: Store

    constructor (enabled: bool)
      ensures this.enabled == enabled && store == map[]
    {
      this.enabled := enabled;
      store := map[];
    }

    method Call(key: string, now: int, ttl: int, computed: Json.Value) returns (result: Json.Value, invoked: bool)
      requires ttl > 0
      modifies this
      ensures !enabled ==> result == computed && invoked && store == old(store)
      ensures enabled ==> CallResult(result, invoked, store) == Cached(old(store), key, now, ttl, computed)
    {
      if !enabled {
        return computed, true;
      }
      if key in store && now < store[key].expiry {
        result, invoked := store[key].value, false;
      } else {
        result, invoked := computed, true;
        store := store[key := Entry(computed, now + ttl)];
      }
    }
  }

  /**
   * What a decorated view hands back: a JSON-serialisable payload, or a Flask response
   * object (the result of `jsonify`) with the JSON body it carries and its `str()`.
   */
  datatype ViewResult = Payload(data: Json.Value) | FlaskResponse(body: Json.Value, repr: string)

  /** The JSON body the client receives when the view's result is returned directly. */
  function BodyOnMiss(r: ViewResult): Json.Value
  {
    match r
    case Payload(d) => d
    case FlaskResponse(b, _) => b
  }

  /**
   * The value a cache hit returns as written: `json.loads(json.dumps(result, default=str))`.
   * A response object is not JSON-serialisable, so `default=str` stores its repr string.
   */
  function HitValueAsWritten(r: ViewResult): (v: Json.Value)
    ensures r.FlaskResponse? ==> v.Str?
  {
    match r
    case Payload(d) => d
    case FlaskResponse(_, repr) => Json.Str(repr)
  }

  /**
   * As written, a view that returns `jsonify({...})` (an object body) gets a different
   * body on every cache hit: the repr string instead of the object.
   */
  lemma ResponseObjectHitDiffers(body: Json.Value, repr: string)
    requires body.Object?
    ensures HitValueAsWritten(FlaskResponse(body, repr)) != BodyOnMiss(FlaskResponse(body, repr))
  {
  }

  /** For payloads the stored form decodes to what the view returned. */
  lemma PayloadHitMatchesMiss(d: Json.Value)
    ensures HitValueAsWritten(Payload(d)) == BodyOnMiss(Payload(d))
  {
  }
}
