/** The scenarios of test/uri.test.js, stated on the model: the descriptors the
    tests build, and the `metatileCache` and `metrics` settings normalisation
    gives them. */
module UriScenarios {
  import opened Common
  import opened JsValues
  import opened Uri
  import opened UriLemmas

  /** `makeUri(metatileCache)` of test/uri.test.js:6-12. */
  function CacheUri(cache: JsValue): map<string, JsValue> {
    map["query" := Obj(map["metatileCache" := cache])]
  }

  /** `makeUri(metrics)` of test/uri.test.js:96-108: the field is only set when given. */
  function MetricsUri(metrics: Option<JsValue>): map<string, JsValue> {
    map["protocol" := Str("mapnik:"), "pathname" := Str("./test/data/test.xml"),
        "query" := Obj(if metrics.Some? then map["metrics" := metrics.value] else map[])]
  }

  /** The normalised query of a descriptor whose query is an object. */
  lemma QueryOfObject(uri: map<string, JsValue>, q: map<string, JsValue>, env: Env)
    requires Get(uri, "query") == Obj(q)
    requires NormalizedQuery(q, env).Success?
    ensures NormalizedUri(uri, env).Success?
    ensures "query" in NormalizedUri(uri, env).value
    ensures NormalizedUri(uri, env).value["query"] == Obj(NormalizedQuery(q, env).value)
  {
  }

  /** Normalising `makeUri(cache)` gives the cache settings `ttl` and `deleteOnHit`. */
  predicate CacheSettings(cache: JsValue, env: Env, ttl: JsValue, deleteOnHit: bool) {
    && NormalizedUri(CacheUri(cache), env).Success?
    && var u := NormalizedUri(CacheUri(cache), env).value;
       && "query" in u && u["query"].Obj?
       && "metatileCache" in u["query"].props && u["query"].props["metatileCache"].Obj?
       && Get(u["query"].props["metatileCache"].props, "ttl") == ttl
       && Get(u["query"].props["metatileCache"].props, "deleteOnHit") == Bool(deleteOnHit)
  }

  /** The settings `makeUri(cache)` normalises to, for any `cache` that is not a
      truthy primitive. */
  lemma CacheSettingsOf(cache: JsValue, env: Env)
    requires !TruthyPrimitive(cache)
    ensures var cp := PropsOf(cache);
            CacheSettings(cache, env,
              if Truthy(Get(cp, "ttl")) then cp["ttl"] else Num(Finite(0.0)),
              "deleteOnHit" in cp && AsBool(cp["deleteOnHit"]))
  {
    var q := map["metatileCache" := cache];
    assert Get(q, "limits") == Undefined;
    NormalizedQueryFails(q, env);
    QueryOfObject(CacheUri(cache), q, env);
    NormalizedCacheKeep(q, env);
  }

  /** The metatileCache scenario where no config gives `ttl: 0, deleteOnHit: false` (test/uri.test.js:15-22). */
  lemma CacheUnset(env: Env)
    ensures CacheSettings(Undefined, env, Num(Finite(0.0)), false)
  {
    CacheSettingsOf(Undefined, env);
  }

  /** The metatileCache scenario where `{}` gives the same defaults (test/uri.test.js:23-30). */
  lemma CacheEmpty(env: Env)
    ensures CacheSettings(Obj(map[]), env, Num(Finite(0.0)), false)
  {
    CacheSettingsOf(Obj(map[]), env);
  }

  /** The metatileCache scenario where a given `ttl` is kept (test/uri.test.js:31-40). */
  lemma CacheTtl(env: Env)
    ensures CacheSettings(Obj(map["ttl" := Num(Finite(1000.0))]), env, Num(Finite(1000.0)), false)
  {
    CacheSettingsOf(Obj(map["ttl" := Num(Finite(1000.0))]), env);
  }

  /** The metatileCache scenario where `deleteOnHit: false` stays false (test/uri.test.js:41-50). */
  lemma CacheKeepFalse(env: Env)
    ensures CacheSettings(Obj(map["deleteOnHit" := Bool(false)]), env, Num(Finite(0.0)), false)
  {
    CacheSettingsOf(Obj(map["deleteOnHit" := Bool(false)]), env);
  }

  /** The metatileCache scenario where `deleteOnHit: true` stays true (test/uri.test.js:51-60). */
  lemma CacheKeepTrue(env: Env)
    ensures CacheSettings(Obj(map["deleteOnHit" := Bool(true)]), env, Num(Finite(0.0)), true)
  {
    CacheSettingsOf(Obj(map["deleteOnHit" := Bool(true)]), env);
  }

  /** The metatileCache scenario where `deleteOnHit: 'true'` reads as true (test/uri.test.js:61-70). */
  lemma CacheTrueText(env: Env)
    ensures CacheSettings(Obj(map["deleteOnHit" := Str("true")]), env, Num(Finite(0.0)), true)
  {
    AsBoolTrueWord();
    CacheSettingsOf(Obj(map["deleteOnHit" := Str("true")]), env);
  }

  /** The metatileCache scenario where `ttl` and `deleteOnHit` together are both kept (test/uri.test.js:71-80). */
  lemma CacheTtlAndTrue(env: Env)
    ensures CacheSettings(Obj(map["ttl" := Num(Finite(1000.0)), "deleteOnHit" := Bool(true)]), env, Num(Finite(1000.0)), true)
  {
    CacheSettingsOf(Obj(map["ttl" := Num(Finite(1000.0)), "deleteOnHit" := Bool(true)]), env);
  }

  /** Normalising `makeUri(metrics)` gives the metrics flag `flag`. */
  predicate MetricsSetting(metrics: Option<JsValue>, env: Env, flag: bool) {
    && NormalizedUri(MetricsUri(metrics), env).Success?
    && var u := NormalizedUri(MetricsUri(metrics), env).value;
       && "query" in u && u["query"].Obj?
       && Get(u["query"].props, "metrics") == Bool(flag)
  }

  /** The flag `makeUri(metrics)` normalises to. */
  lemma MetricsSettingOf(metrics: Option<JsValue>, env: Env)
    ensures MetricsSetting(metrics, env, metrics.Some? && metrics.value != Undefined && AsBool(metrics.value))
  {
    var q := if metrics.Some? then map["metrics" := metrics.value] else map[];
    assert Get(q, "limits") == Undefined && Get(q, "metatileCache") == Undefined;
    NormalizedQueryFails(q, env);
    QueryOfObject(MetricsUri(metrics), q, env);
    NormalizedFlags(q, env);
  }

  /** test/uri.test.js:110-123: metrics default to false, and `false` and `true`
      stay what they are. */
  lemma MetricsScenarios(env: Env)
    ensures MetricsSetting(None, env, false)
    ensures MetricsSetting(Some(Bool(false)), env, false)
    ensures MetricsSetting(Some(Bool(true)), env, true)
  {
    MetricsSettingOf(None, env);
    MetricsSettingOf(Some(Bool(false)), env);
    MetricsSettingOf(Some(Bool(true)), env);
  }
}
