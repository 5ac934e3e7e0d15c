/** What lib/uri.js promises about the normalised descriptor: when it throws, which
    fields it always sets and with which types, which given values it keeps, the
    defaults of an empty query, and the scenarios of test/uri.test.js. */
module UriLemmas {
  import opened Common
  import opened Strings
  import opened JsValues
  import opened Uri

  /** The query fields lines 35-99 always set. */
  const NormalizedKeys: set<string> :=
    {"base", "metatile", "resolution", "bufferSize", "tileSize", "scale",
     "limits", "metatileCache", "metrics", "poolSize", "poolMaxWaitingClients"}

  /** The properties of an object value, or none. */
  function PropsOf(v: JsValue): map<string, JsValue> {
    if v.Obj? then v.props else map[]
  }

  /** `b` has every field of `a` outside `s`, with the same value. */
  predicate Agrees(a: map<string, JsValue>, b: map<string, JsValue>, s: set<string>) {
    forall k :: k in a && k !in s ==> k in b && b[k] == a[k]
  }

  lemma AgreesTrans(a: map<string, JsValue>, b: map<string, JsValue>, c: map<string, JsValue>, s: set<string>, t: set<string>)
    requires Agrees(a, b, s) && Agrees(b, c, t)
    ensures Agrees(a, c, s + t)
  {
  }

  /** The fields lines 35-65 set. */
  const NumberKeys: set<string> := {"base", "metatile", "resolution", "bufferSize", "tileSize", "scale"}

  /** The fields lines 87-99 set. */
  const FlagKeys: set<string> := {"metrics", "poolSize", "poolMaxWaitingClients"}

  /** Lines 35-65 set their six fields and leave the rest of the query alone. */
  lemma NumbersStep(q: map<string, JsValue>, env: Env)
    ensures var q1 := WithNumbers(q, env);
            && q1.Keys == q.Keys + NumberKeys
            && Agrees(q, q1, NumberKeys)
            && q1["base"] == (if Truthy(Get(q, "base")) then q["base"] else Str(env.defaultBase))
            && q1["metatile"] == NumberOr(Get(q, "metatile"), 2.0)
            && q1["resolution"] == NumberOr(Get(q, "resolution"), 4.0)
            && q1["bufferSize"] == (if IsFiniteNumber(Get(q, "bufferSize")) then q["bufferSize"] else Num(Finite(128.0)))
            && q1["tileSize"] == NumberOr(Get(q, "tileSize"), 256.0)
            && q1["scale"] == NumberOr(Get(q, "scale"), 1.0)
  {
  }

  /** Lines 67-71 set `limits` and leave the rest of the query alone. */
  lemma LimitsStep(q: map<string, JsValue>)
    requires !TruthyPrimitive(Get(q, "limits"))
    ensures WithLimits(q).Success?
    ensures var q2 := WithLimits(q).value;
            var lp := PropsOf(Get(q, "limits"));
            && q2.Keys == q.Keys + {"limits"}
            && Agrees(q, q2, {"limits"})
            && q2["limits"] == Obj(lp["render" := WhenUndefined(Get(lp, "render"), Num(Finite(0.0)))])
  {
  }

  /** Lines 73-85 set `metatileCache` and leave the rest of the query alone. */
  lemma CacheStep(q: map<string, JsValue>)
    requires !TruthyPrimitive(Get(q, "metatileCache"))
    ensures WithCache(q).Success?
    ensures var q3 := WithCache(q).value;
            var cp := PropsOf(Get(q, "metatileCache"));
            && q3.Keys == q.Keys + {"metatileCache"}
            && Agrees(q, q3, {"metatileCache"})
            && q3["metatileCache"] == Obj(cp
                 ["ttl" := if Truthy(Get(cp, "ttl")) then cp["ttl"] else Num(Finite(0.0))]
                 ["deleteOnHit" := Bool("deleteOnHit" in cp && AsBool(cp["deleteOnHit"]))])
  {
  }

  /** Lines 87-99 set their three fields and leave the rest of the query alone. */
  lemma FlagsStep(q: map<string, JsValue>, env: Env)
    ensures var q4 := WithFlags(q, env);
            && q4.Keys == q.Keys + FlagKeys
            && Agrees(q, q4, FlagKeys)
            && q4["metrics"] == (if Get(q, "metrics") == Undefined then Bool(false) else Bool(AsBool(q["metrics"])))
            && q4["poolSize"] == WhenUndefined(Get(q, "poolSize"), Num(Finite(env.cpus as real)))
            && q4["poolMaxWaitingClients"] == WhenUndefined(Get(q, "poolMaxWaitingClients"), Num(Finite(32.0)))
  {
  }

  /** The steps before `limits` leave it alone, and the `limits` step leaves
      `metatileCache` alone. */
  lemma HoldersUntouched(q: map<string, JsValue>, env: Env)
    ensures Get(WithNumbers(q, env), "limits") == Get(q, "limits")
    ensures Get(WithNumbers(q, env), "metatileCache") == Get(q, "metatileCache")
    ensures WithLimits(WithNumbers(q, env)).Success? ==>
              Get(WithLimits(WithNumbers(q, env)).value, "metatileCache") == Get(q, "metatileCache")
  {
    NumbersStep(q, env);
    assert "limits" !in NumberKeys && "metatileCache" !in NumberKeys;
    if WithLimits(WithNumbers(q, env)).Success? {
      LimitsStep(WithNumbers(q, env));
      assert "metatileCache" != "limits";
    }
  }

  /** Normalising a query throws exactly when `limits` or `metatileCache` is a
      truthy primitive, and the first of them decides which assignment throws. */
  lemma NormalizedQueryFails(q: map<string, JsValue>, env: Env)
    ensures NormalizedQuery(q, env).Failure? <==>
              TruthyPrimitive(Get(q, "limits")) || TruthyPrimitive(Get(q, "metatileCache"))
    ensures TruthyPrimitive(Get(q, "limits")) ==> NormalizedQuery(q, env) == Failure(TypeError("render"))
    ensures !TruthyPrimitive(Get(q, "limits")) && TruthyPrimitive(Get(q, "metatileCache")) ==>
              NormalizedQuery(q, env) == Failure(TypeError("ttl"))
  {
    HoldersUntouched(q, env);
  }

  /** Normalising a URI throws exactly when its query is a truthy primitive other
      than text, or the query obtained from it has a primitive `limits` or
      `metatileCache`. */
  lemma NormalizedUriFails(uri: map<string, JsValue>, env: Env)
    ensures var query := Get(uri, "query");
            NormalizedUri(uri, env).Failure? <==>
              if TruthyPrimitive(query) && !query.Str? then true
              else
                var q := if !Truthy(query) then map[] else if query.Str? then env.parseQuery(query.s) else query.props;
                TruthyPrimitive(Get(q, "limits")) || TruthyPrimitive(Get(q, "metatileCache"))
  {
    var query := Get(uri, "query");
    if !(TruthyPrimitive(query) && !query.Str?) {
      NormalizedQueryFails(QueryObject(query, env).value, env);
    }
  }

  /** The last three steps leave the fields of lines 35-65 alone, and the last
      step leaves `limits` and `metatileCache` alone. */
  lemma KeysApart()
    ensures NormalizedKeys == NumberKeys + {"limits"} + {"metatileCache"} + FlagKeys
    ensures forall k :: k in NumberKeys ==> k != "limits" && k != "metatileCache" && k !in FlagKeys
    ensures forall k :: k in FlagKeys ==> k != "limits" && k != "metatileCache"
    ensures "limits" != "metatileCache"
  {
  }

  /** The query after each step, when none throws. */
  lemma Stages(q: map<string, JsValue>, env: Env)
    requires NormalizedQuery(q, env).Success?
    ensures !TruthyPrimitive(Get(q, "limits")) && !TruthyPrimitive(Get(q, "metatileCache"))
    ensures WithLimits(WithNumbers(q, env)).Success?
    ensures WithCache(WithLimits(WithNumbers(q, env)).value).Success?
    ensures NormalizedQuery(q, env).value ==
              WithFlags(WithCache(WithLimits(WithNumbers(q, env)).value).value, env)
  {
    NormalizedQueryFails(q, env);
  }

  /** `nq` has exactly the fields of `q` and those lines 35-99 set, and agrees
      with `q` on every field they do not set. */
  predicate FrameOf(q: map<string, JsValue>, nq: map<string, JsValue>) {
    && nq.Keys == q.Keys + NormalizedKeys
    && forall k :: k in q && k !in NormalizedKeys ==> nq[k] == q[k]
  }

  /** The fields of `nq` that lines 35-65 make of `q`. */
  predicate NumbersOf(q: map<string, JsValue>, nq: map<string, JsValue>, env: Env) {
    && NumberKeys <= nq.Keys
    && nq["base"] == (if Truthy(Get(q, "base")) then q["base"] else Str(env.defaultBase))
    && nq["metatile"] == NumberOr(Get(q, "metatile"), 2.0)
    && nq["resolution"] == NumberOr(Get(q, "resolution"), 4.0)
    && nq["bufferSize"] == (if IsFiniteNumber(Get(q, "bufferSize")) then q["bufferSize"] else Num(Finite(128.0)))
    && nq["tileSize"] == NumberOr(Get(q, "tileSize"), 256.0)
    && nq["scale"] == NumberOr(Get(q, "scale"), 1.0)
  }

  /** `limits` and `metatileCache` as lines 67-85 make them of `q`. */
  predicate HoldersOf(q: map<string, JsValue>, nq: map<string, JsValue>) {
    var lp := PropsOf(Get(q, "limits"));
    var cp := PropsOf(Get(q, "metatileCache"));
    && "limits" in nq && "metatileCache" in nq
    && nq["limits"] == Obj(lp["render" := WhenUndefined(Get(lp, "render"), Num(Finite(0.0)))])
    && nq["metatileCache"] == Obj(cp
         ["ttl" := if Truthy(Get(cp, "ttl")) then cp["ttl"] else Num(Finite(0.0))]
         ["deleteOnHit" := Bool("deleteOnHit" in cp && AsBool(cp["deleteOnHit"]))])
  }

  /** The fields of `nq` that lines 87-99 make of `q`. */
  predicate FlagsOf(q: map<string, JsValue>, nq: map<string, JsValue>, env: Env) {
    && FlagKeys <= nq.Keys
    && nq["metrics"] == (if Get(q, "metrics") == Undefined then Bool(false) else Bool(AsBool(q["metrics"])))
    && nq["poolSize"] == WhenUndefined(Get(q, "poolSize"), Num(Finite(env.cpus as real)))
    && nq["poolMaxWaitingClients"] == WhenUndefined(Get(q, "poolMaxWaitingClients"), Num(Finite(32.0)))
  }

  /** Field by field, `nq` is what lines 35-99 make of `q`. */
  predicate FieldsOf(q: map<string, JsValue>, nq: map<string, JsValue>, env: Env) {
    FrameOf(q, nq) && NumbersOf(q, nq, env) && HoldersOf(q, nq) && FlagsOf(q, nq, env)
  }

  /** Four steps that set the fields of lines 35-65, `limits`, `metatileCache` and
      those of lines 87-99 together keep every other field. */
  lemma FrameChain(q: map<string, JsValue>, q1: map<string, JsValue>, q2: map<string, JsValue>,
                   q3: map<string, JsValue>, q4: map<string, JsValue>)
    requires q1.Keys == q.Keys + NumberKeys && Agrees(q, q1, NumberKeys)
    requires q2.Keys == q1.Keys + {"limits"} && Agrees(q1, q2, {"limits"})
    requires q3.Keys == q2.Keys + {"metatileCache"} && Agrees(q2, q3, {"metatileCache"})
    requires q4.Keys == q3.Keys + FlagKeys && Agrees(q3, q4, FlagKeys)
    ensures FrameOf(q, q4)
  {
    KeysApart();
    AgreesTrans(q, q1, q2, NumberKeys, {"limits"});
    AgreesTrans(q, q2, q3, NumberKeys + {"limits"}, {"metatileCache"});
    AgreesTrans(q, q3, q4, NumberKeys + {"limits"} + {"metatileCache"}, FlagKeys);
  }

  lemma NormalizedFrame(q: map<string, JsValue>, env: Env)
    requires NormalizedQuery(q, env).Success?
    ensures FrameOf(q, NormalizedQuery(q, env).value)
  {
    Stages(q, env);
    var q1 := WithNumbers(q, env);
    NumbersStep(q, env);
    LimitsStep(q1);
    var q2 := WithLimits(q1).value;
    CacheStep(q2);
    var q3 := WithCache(q2).value;
    FlagsStep(q3, env);
    FrameChain(q, q1, q2, q3, WithFlags(q3, env));
  }

  lemma NormalizedNumbers(q: map<string, JsValue>, env: Env)
    requires NormalizedQuery(q, env).Success?
    ensures NumbersOf(q, NormalizedQuery(q, env).value, env)
  {
    Stages(q, env);
    KeysApart();
    var q1 := WithNumbers(q, env);
    NumbersStep(q, env);
    LimitsStep(q1);
    var q2 := WithLimits(q1).value;
    CacheStep(q2);
    var q3 := WithCache(q2).value;
    FlagsStep(q3, env);
  }

  lemma NormalizedHolders(q: map<string, JsValue>, env: Env)
    requires NormalizedQuery(q, env).Success?
    ensures HoldersOf(q, NormalizedQuery(q, env).value)
  {
    Stages(q, env);
    KeysApart();
    var q1 := WithNumbers(q, env);
    NumbersStep(q, env);
    LimitsStep(q1);
    var q2 := WithLimits(q1).value;
    CacheStep(q2);
    var q3 := WithCache(q2).value;
    FlagsStep(q3, env);
  }

  lemma NormalizedFlags(q: map<string, JsValue>, env: Env)
    requires NormalizedQuery(q, env).Success?
    ensures FlagsOf(q, NormalizedQuery(q, env).value, env)
  {
    Stages(q, env);
    KeysApart();
    var q1 := WithNumbers(q, env);
    NumbersStep(q, env);
    LimitsStep(q1);
    var q2 := WithLimits(q1).value;
    CacheStep(q2);
    var q3 := WithCache(q2).value;
    FlagsStep(q3, env);
  }

  /** Every field of a normalised query in terms of the query given: lines 35-99
      each set one field, and none reads a field an earlier line set. */
  lemma NormalizedFields(q: map<string, JsValue>, env: Env)
    requires NormalizedQuery(q, env).Success?
    ensures FieldsOf(q, NormalizedQuery(q, env).value, env)
  {
    NormalizedFrame(q, env);
    NormalizedNumbers(q, env);
    NormalizedHolders(q, env);
    NormalizedFlags(q, env);
  }

  /** The types the fields of a query described by `FieldsOf` have. */
  lemma FieldTypes(q: map<string, JsValue>, nq: map<string, JsValue>, env: Env)
    requires FieldsOf(q, nq, env)
    ensures && nq["metatile"].Num? && nq["resolution"].Num? && nq["tileSize"].Num? && nq["scale"].Num?
            && IsFiniteNumber(nq["bufferSize"])
            && nq["limits"].Obj? && Get(nq["limits"].props, "render") != Undefined
            && nq["metatileCache"].Obj? && "ttl" in nq["metatileCache"].props
            && Get(nq["metatileCache"].props, "deleteOnHit").Bool?
            && nq["metrics"].Bool?
            && nq["poolSize"] != Undefined && nq["poolMaxWaitingClients"] != Undefined
  {
    assert "ttl" != "deleteOnHit";
  }

  /** The fields every normalised query has, with their types; the query gains
      exactly these fields and every other field keeps its value. */
  lemma NormalizedQueryShape(q: map<string, JsValue>, env: Env)
    requires NormalizedQuery(q, env).Success?
    ensures var nq := NormalizedQuery(q, env).value;
            && nq.Keys == q.Keys + NormalizedKeys
            && (forall k :: k in q && k !in NormalizedKeys ==> nq[k] == q[k])
            && nq["metatile"].Num? && nq["resolution"].Num? && nq["tileSize"].Num? && nq["scale"].Num?
            && IsFiniteNumber(nq["bufferSize"])
            && nq["limits"].Obj? && Get(nq["limits"].props, "render") != Undefined
            && nq["metatileCache"].Obj? && "ttl" in nq["metatileCache"].props
            && Get(nq["metatileCache"].props, "deleteOnHit").Bool?
            && nq["metrics"].Bool?
            && nq["poolSize"] != Undefined && nq["poolMaxWaitingClients"] != Undefined
  {
    NormalizedFields(q, env);
    FieldTypes(q, NormalizedQuery(q, env).value, env);
  }

  /** Values the caller gave are kept: a truthy `base`, a finite `bufferSize`
      (0 included), defined `poolSize` and `poolMaxWaitingClients`, a boolean
      `metrics`. */
  lemma NormalizedQueryKeeps(q: map<string, JsValue>, env: Env)
    requires NormalizedQuery(q, env).Success?
    ensures var nq := NormalizedQuery(q, env).value;
            && (Truthy(Get(q, "base")) ==> nq["base"] == q["base"])
            && (IsFiniteNumber(Get(q, "bufferSize")) ==> nq["bufferSize"] == q["bufferSize"])
            && (Get(q, "poolSize") != Undefined ==> nq["poolSize"] == q["poolSize"])
            && (Get(q, "poolMaxWaitingClients") != Undefined ==> nq["poolMaxWaitingClients"] == q["poolMaxWaitingClients"])
            && (Get(q, "metrics").Bool? ==> nq["metrics"] == q["metrics"])
  {
    NormalizedNumbers(q, env);
    NormalizedFlags(q, env);
  }

  /** What happens to a `limits` object described by `HoldersOf`. */
  lemma LimitsOf(q: map<string, JsValue>, nq: map<string, JsValue>)
    requires HoldersOf(q, nq)
    ensures var lp := PropsOf(Get(q, "limits"));
            var nlp := nq["limits"].props;
            && nlp.Keys == lp.Keys + {"render"}
            && (forall k :: k in lp && k != "render" ==> nlp[k] == lp[k])
            && (Get(lp, "render") != Undefined ==> nlp["render"] == lp["render"])
            && (Get(lp, "render") == Undefined ==> nlp["render"] == Num(Finite(0.0)))
  {
  }

  /** The fields of a given `limits` object survive, `render` too once defined. */
  lemma NormalizedLimitsKeep(q: map<string, JsValue>, env: Env)
    requires NormalizedQuery(q, env).Success?
    ensures "limits" in NormalizedQuery(q, env).value && NormalizedQuery(q, env).value["limits"].Obj?
    ensures var lp := PropsOf(Get(q, "limits"));
            var nlp := NormalizedQuery(q, env).value["limits"].props;
            && nlp.Keys == lp.Keys + {"render"}
            && (forall k :: k in lp && k != "render" ==> nlp[k] == lp[k])
            && (Get(lp, "render") != Undefined ==> nlp["render"] == lp["render"])
            && (Get(lp, "render") == Undefined ==> nlp["render"] == Num(Finite(0.0)))
  {
    NormalizedHolders(q, env);
    LimitsOf(q, NormalizedQuery(q, env).value);
  }

  /** What happens to a `metatileCache` object described by `HoldersOf`. */
  lemma CacheOf(q: map<string, JsValue>, nq: map<string, JsValue>)
    requires HoldersOf(q, nq)
    ensures var cp := PropsOf(Get(q, "metatileCache"));
            var ncp := nq["metatileCache"].props;
            && ncp.Keys == cp.Keys + {"ttl", "deleteOnHit"}
            && (forall k :: k in cp && k != "ttl" && k != "deleteOnHit" ==> ncp[k] == cp[k])
            && ncp["ttl"] == (if Truthy(Get(cp, "ttl")) then cp["ttl"] else Num(Finite(0.0)))
            && ncp["deleteOnHit"] == Bool("deleteOnHit" in cp && AsBool(cp["deleteOnHit"]))
  {
    assert "ttl" != "deleteOnHit";
  }

  /** The fields of a given `metatileCache` object survive besides `ttl` (kept
      when truthy, else 0) and `deleteOnHit` (false when absent, else `asBool`). */
  lemma NormalizedCacheKeep(q: map<string, JsValue>, env: Env)
    requires NormalizedQuery(q, env).Success?
    ensures "metatileCache" in NormalizedQuery(q, env).value && NormalizedQuery(q, env).value["metatileCache"].Obj?
    ensures var cp := PropsOf(Get(q, "metatileCache"));
            var ncp := NormalizedQuery(q, env).value["metatileCache"].props;
            && ncp.Keys == cp.Keys + {"ttl", "deleteOnHit"}
            && (forall k :: k in cp && k != "ttl" && k != "deleteOnHit" ==> ncp[k] == cp[k])
            && ncp["ttl"] == (if Truthy(Get(cp, "ttl")) then cp["ttl"] else Num(Finite(0.0)))
            && ncp["deleteOnHit"] == Bool("deleteOnHit" in cp && AsBool(cp["deleteOnHit"]))
  {
    NormalizedHolders(q, env);
    CacheOf(q, NormalizedQuery(q, env).value);
  }

  /** What `FieldsOf` leaves for a query with no fields. */
  lemma DefaultsOf(nq: map<string, JsValue>, env: Env)
    requires FieldsOf(map[], nq, env)
    ensures && nq.Keys == NormalizedKeys
            && nq["base"] == Str(env.defaultBase)
            && nq["metatile"] == Num(Finite(2.0)) && nq["resolution"] == Num(Finite(4.0))
            && nq["bufferSize"] == Num(Finite(128.0)) && nq["tileSize"] == Num(Finite(256.0))
            && nq["scale"] == Num(Finite(1.0))
            && nq["limits"] == Obj(map["render" := Num(Finite(0.0))])
            && nq["metatileCache"] == Obj(map["ttl" := Num(Finite(0.0)), "deleteOnHit" := Bool(false)])
            && nq["metrics"] == Bool(false)
            && nq["poolSize"] == Num(Finite(env.cpus as real))
            && nq["poolMaxWaitingClients"] == Num(Finite(32.0))
  {
  }

  /** The defaults of an empty query (lines 35-99 with nothing given). */
  lemma EmptyQueryDefaults(env: Env)
    ensures NormalizedQuery(map[], env).Success?
    ensures var nq := NormalizedQuery(map[], env).value;
            && nq.Keys == NormalizedKeys
            && nq["base"] == Str(env.defaultBase)
            && nq["metatile"] == Num(Finite(2.0)) && nq["resolution"] == Num(Finite(4.0))
            && nq["bufferSize"] == Num(Finite(128.0)) && nq["tileSize"] == Num(Finite(256.0))
            && nq["scale"] == Num(Finite(1.0))
            && nq["limits"] == Obj(map["render" := Num(Finite(0.0))])
            && nq["metatileCache"] == Obj(map["ttl" := Num(Finite(0.0)), "deleteOnHit" := Bool(false)])
            && nq["metrics"] == Bool(false)
            && nq["poolSize"] == Num(Finite(env.cpus as real))
            && nq["poolMaxWaitingClients"] == Num(Finite(32.0))
  {
    NormalizedQueryFails(map[], env);
    NormalizedFields(map[], env);
    DefaultsOf(NormalizedQuery(map[], env).value, env);
  }

  /** The fields lines 17-27 add, rewrite or delete, which this model leaves alone. */
  const PathKeys: set<string> := {"pathname", "hostname", "host"}

  /** A URI without `strict` or `query` gets `strict: false` and the default query
      (lines 13-15 and 29); any other field of the URI, besides the path fields,
      keeps its value. */
  lemma NormalizedUriShape(uri: map<string, JsValue>, env: Env)
    requires NormalizedUri(uri, env).Success?
    ensures var u := NormalizedUri(uri, env).value;
            && u.Keys - PathKeys == (uri.Keys - PathKeys) + {"strict", "query"}
            && (forall k :: k in uri && k !in PathKeys && k != "strict" && k != "query" ==> u[k] == uri[k])
            && u["strict"] == (if Get(uri, "strict") == Undefined then Bool(false) else uri["strict"])
            && (!Truthy(Get(uri, "query")) ==> u["query"] == Obj(NormalizedQuery(map[], env).value))
  {
  }

  /** A number field that is already a truthy number is left as it is. */
  lemma NumberOrFixed(v: JsValue, d: real)
    requires v.Num? && Truthy(v)
    ensures NumberOr(v, d) == v
  {
  }

  /** A `limits` object with `render` defined is left as it is. */
  lemma LimitsFixed(lp: map<string, JsValue>)
    requires Get(lp, "render") != Undefined
    ensures lp["render" := WhenUndefined(Get(lp, "render"), Num(Finite(0.0)))] == lp
  {
  }

  /** A `metatileCache` object whose `ttl` is truthy or 0 and whose `deleteOnHit`
      is a boolean is left as it is. */
  lemma CacheFixed(cp: map<string, JsValue>)
    requires "ttl" in cp && (Truthy(cp["ttl"]) || cp["ttl"] == Num(Finite(0.0)))
    requires "deleteOnHit" in cp && cp["deleteOnHit"].Bool?
    ensures cp["ttl" := if Truthy(Get(cp, "ttl")) then cp["ttl"] else Num(Finite(0.0))]
              ["deleteOnHit" := Bool("deleteOnHit" in cp && AsBool(cp["deleteOnHit"]))] == cp
  {
    assert AsBool(cp["deleteOnHit"]) == cp["deleteOnHit"].b;
  }

  /** Normalising a query described by `NumbersOf` again keeps its fields of
      lines 35-65 once the coerced ones are truthy. */
  lemma NumbersFixed(q: map<string, JsValue>, nq: map<string, JsValue>, nq2: map<string, JsValue>, env: Env)
    requires NumbersOf(q, nq, env) && NumbersOf(nq, nq2, env)
    requires Truthy(nq["metatile"]) && Truthy(nq["resolution"]) && Truthy(nq["tileSize"]) && Truthy(nq["scale"])
    ensures forall k :: k in NumberKeys ==> nq2[k] == nq[k]
  {
    NumberOrFixed(nq["metatile"], 2.0);
    NumberOrFixed(nq["resolution"], 4.0);
    NumberOrFixed(nq["tileSize"], 256.0);
    NumberOrFixed(nq["scale"], 1.0);
  }

  /** Normalising a query described by `HoldersOf` again keeps `limits` and
      `metatileCache`. */
  lemma HoldersFixed(q: map<string, JsValue>, nq: map<string, JsValue>, nq2: map<string, JsValue>)
    requires HoldersOf(q, nq) && HoldersOf(nq, nq2)
    ensures nq2["limits"] == nq["limits"] && nq2["metatileCache"] == nq["metatileCache"]
  {
    LimitsFixed(nq["limits"].props);
    assert "ttl" != "deleteOnHit";
    CacheFixed(nq["metatileCache"].props);
  }

  /** Normalising a query described by `FlagsOf` again keeps its fields of
      lines 87-99. */
  lemma FlagsFixed(q: map<string, JsValue>, nq: map<string, JsValue>, nq2: map<string, JsValue>, env: Env)
    requires FlagsOf(q, nq, env) && FlagsOf(nq, nq2, env)
    ensures forall k :: k in FlagKeys ==> nq2[k] == nq[k]
  {
  }

  /** If `nq` is what lines 35-99 make of `q`, and `nq2` what they make of `nq`,
      then `nq2` is `nq` unless a coerced numeric field came out falsy. */
  lemma FieldsFixed(q: map<string, JsValue>, nq: map<string, JsValue>, nq2: map<string, JsValue>, env: Env)
    requires FieldsOf(q, nq, env) && FieldsOf(nq, nq2, env)
    requires Truthy(nq["metatile"]) && Truthy(nq["resolution"]) && Truthy(nq["tileSize"]) && Truthy(nq["scale"])
    ensures nq2 == nq
  {
    NumbersFixed(q, nq, nq2, env);
    HoldersFixed(q, nq, nq2);
    FlagsFixed(q, nq, nq2, env);
    KeysApart();
    assert nq2.Keys == nq.Keys;
    forall k | k in nq
      ensures nq2[k] == nq[k]
    {
    }
  }

  /** A normalised query whose coerced numeric fields are truthy. */
  predicate Settled(q: map<string, JsValue>, env: Env) {
    && NormalizedQuery(q, env).Success?
    && var nq := NormalizedQuery(q, env).value;
       && "metatile" in nq && "resolution" in nq && "tileSize" in nq && "scale" in nq
       && Truthy(nq["metatile"]) && Truthy(nq["resolution"]) && Truthy(nq["tileSize"]) && Truthy(nq["scale"])
  }

  /** Normalising twice changes nothing once the coerced numeric fields are
      truthy: `0` and NaN would fall back to their defaults the second time. */
  lemma NormalizedQueryIdempotent(q: map<string, JsValue>, env: Env)
    requires Settled(q, env)
    ensures NormalizedQuery(NormalizedQuery(q, env).value, env) == Success(NormalizedQuery(q, env).value)
  {
    var nq := NormalizedQuery(q, env).value;
    NormalizedFields(q, env);
    NormalizedQueryFails(nq, env);
    NormalizedFields(nq, env);
    FieldsFixed(q, nq, NormalizedQuery(nq, env).value, env);
  }

  /** The text `0` reads as the number 0. */
  lemma ZeroText()
    ensures StringToNumber("0") == Finite(0.0)
  {
    assert Trim("0") == "0" && IndexOf("0", ".") == -1;
  }

  /** `metatile: '0'` is truthy text, so it is coerced and becomes 0, which is
      no longer truthy: a second normalisation would replace it by 2. */
  lemma MetatileZeroText(env: Env)
    ensures NormalizedQuery(map["metatile" := Str("0")], env).Success?
    ensures NormalizedQuery(map["metatile" := Str("0")], env).value["metatile"] == Num(Finite(0.0))
  {
    var q := map["metatile" := Str("0")];
    ZeroText();
    assert !TruthyPrimitive(Get(q, "limits")) && !TruthyPrimitive(Get(q, "metatileCache"));
    NormalizedQueryFails(q, env);
    NormalizedNumbers(q, env);
  }
}
