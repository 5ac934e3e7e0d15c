/** `normalizeURI` and `asBool` of lib/uri.js: the source descriptor's query is
    given typed defaults for the metatile size, vector-grid resolution, buffer size,
    tile size, scale, render limits, output-cache settings, metrics flag and pool
    bounds. The URI has already been parsed into an object; the parts that call
    into Node's `path`, `querystring` and `os` are parameters (`Env`). */
module Uri {
  import opened Common
  import opened Strings
  import opened JsValues

  /** What the normaliser obtains from the platform: the processor count of
      `os.cpus().length`, the base directory line 36 derives from the resolved
      pathname, and `querystring.parse` for a query given as text. */
  datatype Env = Env(cpus: nat, defaultBase: string, parseQuery: string -> map<string, JsValue>)

  /** Strict-mode code throws when it assigns a property of a primitive value. */
  datatype UriError = TypeError(property: string)

  /** `asBool(v)`: a value with a numeric reading is true iff that number is
      non-zero; any other is true iff its lower-cased text still has characters
      once the first `"false"` is removed (`.replace(!!0, '')` searches for the
      text of `false`). */
  function AsBool(v: JsValue): bool {
    var num := ToNumber(v);
    if num != NaN then num != Finite(0.0)
    else RemoveFirst(Lower(NonNumericText(v)), "false") != ""
  }

  /** A value without a numeric reading is false exactly when its text is
      `false` in any letter case. */
  lemma AsBoolText(v: JsValue)
    requires ToNumber(v) == NaN
    ensures AsBool(v) <==> Lower(NonNumericText(v)) != "false"
  {
    RemoveFirstEmpty(Lower(NonNumericText(v)), "false");
  }

  /** Text that starts with neither a digit nor a point is no decimal literal. */
  lemma NotDecimal(body: string)
    requires body != "" && !IsDigit(body[0]) && body[0] != '.'
    ensures DecimalValue(body) == None
  {
  }

  /** A word that starts with a letter and is not `Infinity` has no numeric reading. */
  lemma WordIsNotNumber(s: string)
    requires s != "" && ('a' <= s[0] <= 'z' || 'A' <= s[0] <= 'Z')
    requires !IsJsSpace(s[|s| - 1])
    requires s != "Infinity"
    ensures StringToNumber(s) == NaN
  {
    assert !IsJsSpace(s[0]);
    assert Trim(s) == s;
    assert s != "+Infinity" && s != "-Infinity" by {
      assert "+Infinity"[0] == '+' && "-Infinity"[0] == '-';
    }
    NotDecimal(s);
  }

  /** A word as `asBool` reads it: false exactly when it is `false` in any case. */
  lemma WordAsBool(s: string)
    requires s != "" && ('a' <= s[0] <= 'z' || 'A' <= s[0] <= 'Z')
    requires !IsJsSpace(s[|s| - 1])
    requires s != "Infinity"
    ensures AsBool(Str(s)) <==> Lower(s) != "false"
  {
    WordIsNotNumber(s);
    AsBoolText(Str(s));
  }

  /** Lower-casing maps both spellings of the word onto `false`. */
  lemma LowerFalse()
    ensures Lower("false") == "false" && Lower("FALSE") == "false"
  {
    assert Lower("FALSE")[0] == 'f';
  }

  /** `'true'` reads as true (test/uri.test.js:61-70). */
  lemma AsBoolTrueWord()
    ensures AsBool(Str("true"))
  {
    WordAsBool("true");
    assert Lower("true")[0] == 't';
  }

  /** `'false'` reads as false. */
  lemma AsBoolFalseWord()
    ensures !AsBool(Str("false"))
  {
    WordAsBool("false");
    LowerFalse();
  }

  /** The text is lower-cased before the comparison. */
  lemma AsBoolIgnoresCase()
    ensures !AsBool(Str("FALSE"))
  {
    WordAsBool("FALSE");
    LowerFalse();
  }

  /** Only the first `false` is removed, so `'falsefalse'` reads as true. */
  lemma AsBoolRemovesFirstOnly()
    ensures AsBool(Str("falsefalse"))
  {
    WordAsBool("falsefalse");
    assert |Lower("falsefalse")| == 10;
  }

  /** `undefined` has the text `'undefined'`, so it reads as true. */
  lemma AsBoolUndefined()
    ensures AsBool(Undefined)
  {
    AsBoolText(Undefined);
  }

  /** Booleans keep their value (test/uri.test.js:42-59, 115-123); numeric text
      and `null` read as numbers. */
  lemma AsBoolNumbers()
    ensures AsBool(Bool(true)) && !AsBool(Bool(false)) && !AsBool(Null)
    ensures !AsBool(Str("0")) && AsBool(Str("1")) && !AsBool(Str(""))
  {
    assert Trim("0") == "0" && IndexOf("0", ".") == -1;
    assert Trim("1") == "1" && IndexOf("1", ".") == -1;
  }

  /** `if (!v) v = d; else v = +v` (lines 39-65). */
  function NumberOr(v: JsValue, d: real): JsValue {
    if Truthy(v) then Num(ToNumber(v)) else Num(Finite(d))
  }

  /** `if (typeof v === 'undefined') v = d`. */
  function WhenUndefined(v: JsValue, d: JsValue): JsValue {
    if v == Undefined then d else v
  }

  /** Lines 35-65: `base` and the numeric tuning fields get their defaults. */
  function WithNumbers(q: map<string, JsValue>, env: Env): map<string, JsValue> {
    q["base" := if Truthy(Get(q, "base")) then Get(q, "base") else Str(env.defaultBase)]
     ["metatile" := NumberOr(Get(q, "metatile"), 2.0)]
     ["resolution" := NumberOr(Get(q, "resolution"), 4.0)]
     ["bufferSize" := if IsFiniteNumber(Get(q, "bufferSize")) then Get(q, "bufferSize") else Num(Finite(128.0))]
     ["tileSize" := NumberOr(Get(q, "tileSize"), 256.0)]
     ["scale" := NumberOr(Get(q, "scale"), 1.0)]
  }

  /** Lines 67-71: `limits` becomes an object with `render` defaulting to 0; a
      truthy primitive in its place makes the assignment of `render` throw. */
  function WithLimits(q: map<string, JsValue>): Result<map<string, JsValue>, UriError> {
    var limits := Get(q, "limits");
    if TruthyPrimitive(limits) then Failure(TypeError("render"))
    else
      var lp := if limits.Obj? then limits.props else map[];
      Success(q["limits" := Obj(lp["render" := WhenUndefined(Get(lp, "render"), Num(Finite(0.0)))])])
  }

  /** Lines 73-85: `metatileCache` becomes an object with `ttl` (0 when falsy) and
      `deleteOnHit` (false when absent, else coerced by `asBool`). */
  function WithCache(q: map<string, JsValue>): Result<map<string, JsValue>, UriError> {
    var cache := Get(q, "metatileCache");
    if TruthyPrimitive(cache) then Failure(TypeError("ttl"))
    else
      var cp := if cache.Obj? then cache.props else map[];
      Success(q["metatileCache" := Obj(cp
        ["ttl" := if Truthy(Get(cp, "ttl")) then Get(cp, "ttl") else Num(Finite(0.0))]
        ["deleteOnHit" := Bool("deleteOnHit" in cp && AsBool(cp["deleteOnHit"]))])])
  }

  /** Lines 87-99: the metrics flag and the pool bounds. */
  function WithFlags(q: map<string, JsValue>, env: Env): map<string, JsValue> {
    q["metrics" := if Get(q, "metrics") == Undefined then Bool(false) else Bool(AsBool(Get(q, "metrics")))]
     ["poolSize" := WhenUndefined(Get(q, "poolSize"), Num(Finite(env.cpus as real)))]
     ["poolMaxWaitingClients" := WhenUndefined(Get(q, "poolMaxWaitingClients"), Num(Finite(32.0)))]
  }

  /** The normalised query, or the TypeError strict mode raises when `limits` or
      `metatileCache` holds a truthy primitive. */
  function NormalizedQuery(q: map<string, JsValue>, env: Env): Result<map<string, JsValue>, UriError> {
    match WithLimits(WithNumbers(q, env))
    case Failure(e) => Failure(e)
    case Success(q2) =>
      match WithCache(q2)
      case Failure(e) => Failure(e)
      case Success(q3) => Success(WithFlags(q3, env))
  }

  /** The query object line 29-33 settle on: `{}` for a falsy query, the parsed
      text for a string, the object itself; any other truthy value is a primitive
      whose `base` property cannot be assigned. */
  function QueryObject(query: JsValue, env: Env): Result<map<string, JsValue>, UriError> {
    if !Truthy(query) then Success(map[])
    else if query.Str? then Success(env.parseQuery(query.s))
    else if query.Obj? then Success(query.props)
    else Failure(TypeError("base"))
  }

  /** The normalised URI: `strict` defaults to false, `query` is the normalised query. */
  function NormalizedUri(uri: map<string, JsValue>, env: Env): Result<map<string, JsValue>, UriError> {
    match QueryObject(Get(uri, "query"), env)
    case Failure(e) => Failure(e)
    case Success(q) =>
      match NormalizedQuery(q, env)
      case Failure(e) => Failure(e)
      case Success(nq) =>
        Success(uri["strict" := WhenUndefined(Get(uri, "strict"), Bool(false))]["query" := Obj(nq)])
  }

  /** lib/uri.js:8-102 step by step: each field of the URI and of its query is
      checked and rewritten in the order the source does it. */
  method NormalizeUri(uri0: map<string, JsValue>, env: Env) returns (r: Result<map<string, JsValue>, UriError>)
    ensures r == NormalizedUri(uri0, env)
  {
    var uri := uri0;
    if Get(uri, "strict") == Undefined {
      uri := uri["strict" := Bool(false)];
    } else {
      assert uri["strict" := Get(uri, "strict")] == uri;
    }
    assert "strict" != "query";
    var query := Get(uri, "query");
    assert query == Get(uri0, "query");
    if !Truthy(query) {
      query := Obj(map[]);
    }
    if query.Str? {
      query := Obj(env.parseQuery(query.s));
    }
    if !query.Obj? {
      return Failure(TypeError("base"));
    }
    var q := AssignNumbers(query.props, env);
    var limited := AssignLimits(q);
    if limited.Failure? {
      return Failure(limited.error);
    }
    var cached := AssignCache(limited.value);
    if cached.Failure? {
      return Failure(cached.error);
    }
    q := AssignFlags(cached.value, env);
    uri := uri["query" := Obj(q)];
    r := Success(uri);
  }

  /** Lines 35-65, in order. */
  method AssignNumbers(q0: map<string, JsValue>, env: Env) returns (q: map<string, JsValue>)
    ensures q == WithNumbers(q0, env)
  {
    q := q0;
    if !Truthy(Get(q, "base")) {
      q := q["base" := Str(env.defaultBase)];
    } else {
      assert q["base" := Get(q, "base")] == q;
    }
    q := AssignNumberOr(q, "metatile", 2.0);
    q := AssignNumberOr(q, "resolution", 4.0);
    if !IsFiniteNumber(Get(q, "bufferSize")) {
      q := q["bufferSize" := Num(Finite(128.0))];
    } else {
      assert q["bufferSize" := Get(q, "bufferSize")] == q;
    }
    q := AssignNumberOr(q, "tileSize", 256.0);
    q := AssignNumberOr(q, "scale", 1.0);
  }

  /** One of the four `if (!q.k) q.k = d; else q.k = +q.k` blocks of lines 39-65. */
  method AssignNumberOr(q0: map<string, JsValue>, key: string, d: real) returns (q: map<string, JsValue>)
    ensures q == q0[key := NumberOr(Get(q0, key), d)]
  {
    q := q0;
    if !Truthy(Get(q, key)) {
      q := q[key := Num(Finite(d))];
    } else {
      q := q[key := Num(ToNumber(q[key]))];
    }
  }

  /** Lines 67-71. */
  method AssignLimits(q: map<string, JsValue>) returns (r: Result<map<string, JsValue>, UriError>)
    ensures r == WithLimits(q)
  {
    var limits := Get(q, "limits");
    if !Truthy(limits) {
      limits := Obj(map[]);
    }
    if !limits.Obj? {
      return Failure(TypeError("render"));
    }
    var lp := limits.props;
    if Get(lp, "render") == Undefined {
      lp := lp["render" := Num(Finite(0.0))];
    } else {
      assert lp["render" := Get(lp, "render")] == lp;
    }
    r := Success(q["limits" := Obj(lp)]);
  }

  /** Lines 73-85. */
  method AssignCache(q: map<string, JsValue>) returns (r: Result<map<string, JsValue>, UriError>)
    ensures r == WithCache(q)
  {
    var cache := Get(q, "metatileCache");
    if !Truthy(cache) {
      cache := Obj(map[]);
    }
    if !cache.Obj? {
      return Failure(TypeError("ttl"));
    }
    var cp := cache.props;
    ghost var cp0 := cp;
    cp := cp["ttl" := if Truthy(Get(cp, "ttl")) then cp["ttl"] else Num(Finite(0.0))];
    assert "ttl" != "deleteOnHit";
    assert ("deleteOnHit" in cp <==> "deleteOnHit" in cp0) && ("deleteOnHit" in cp0 ==> cp["deleteOnHit"] == cp0["deleteOnHit"]);
    cp := cp["deleteOnHit" := if "deleteOnHit" in cp then Bool(AsBool(cp["deleteOnHit"])) else Bool(false)];
    r := Success(q["metatileCache" := Obj(cp)]);
  }

  /** Lines 87-99. */
  method AssignFlags(q0: map<string, JsValue>, env: Env) returns (q: map<string, JsValue>)
    ensures q == WithFlags(q0, env)
  {
    q := q0;
    if Get(q, "metrics") == Undefined {
      q := q["metrics" := Bool(false)];
    } else {
      q := q["metrics" := Bool(AsBool(q["metrics"]))];
    }
    if Get(q, "poolSize") == Undefined {
      q := q["poolSize" := Num(Finite(env.cpus as real))];
    }
    if Get(q, "poolMaxWaitingClients") == Undefined {
      q := q["poolMaxWaitingClients" := Num(Finite(32.0))];
    }
  }
}
