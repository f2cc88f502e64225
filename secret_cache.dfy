/** The process-lifetime secret cache of lambdas/fetch_city_data/app.py
    (`get_secret` over `_secret_cache`) and of csv_to_json.py (the same
    function over `_cached_secrets`), and the API-key selection the two
    handlers do with the secret.

    The secrets client is a parameter: for each secret name it either
    answers with a response whose `SecretString` may be missing, or raises
    `ClientError`. JSON decoding is a parameter too: None stands for a
    `json.loads` failure. */
module SecretCache {
  import opened JsonValue

  /** What `get_secret_value(SecretId=name)` does. `ClientError` stands for
      any exception the client raises: a `ClientError` is re-raised by the
      `except`, and any other (a connection or credential error) escapes it,
      with the same effect on the caller and the cache. */
  datatype Fetch =
    | Fetched(secretString: Option<string>)  // `resp.get("SecretString")`
    | ClientError

  /** What a call of `get_secret` does for its caller. */
  datatype Outcome = Returned(value: Value) | Raised

  /** The secret name the CSV handler always asks for, and the weather
      handler's default. */
  const DefaultSecretName: string := "smartcity/openweather"

  /** The weather handler's secret name: the `OPENWEATHER_SECRET_NAME`
      environment variable when it is set (even to the empty string),
      otherwise the default. */
  function ConfiguredSecretName(env: Option<string>): (name: string)
    ensures env.None? ==> name == DefaultSecretName
    ensures env.Some? ==> name == env.value
  {
    match env
    case None => DefaultSecretName
    case Some(n) => n
  }

  /** The value cached for a response: the decoded `SecretString` when it
      decodes, otherwise the raw string; a missing `SecretString` makes
      `json.loads(None)` raise, the `except` keeps the None. */
  function ParseSecret(secretString: Option<string>, decode: string -> Option<Value>): (v: Value)
    ensures secretString.None? ==> v == Null
    ensures secretString.Some? && decode(secretString.value).Some? ==> v == decode(secretString.value).value
    ensures secretString.Some? && decode(secretString.value).None? ==> v == Str(secretString.value)
  {
    match secretString
    case None => Null
    case Some(s) =>
      match decode(s)
      case Some(parsed) => parsed
      case None => Str(s)
  }

  /** One call of `get_secret(name)` on a cache: what it returns or raises,
      the cache afterwards, and whether it called the secrets client. */
  datatype Served = Served(outcome: Outcome, cache: map<string, Value>, fetched: bool)

  /** After the call, what it returned is what the cache holds under
      `name`; it fails only on a miss; and the client is asked exactly
      when `name` was not stored. */
  function Step(cache: map<string, Value>, name: string, fetch: Fetch,
                decode: string -> Option<Value>): (s: Served)
    ensures s.outcome.Returned? ==> name in s.cache && s.cache[name] == s.outcome.value
    ensures s.outcome.Raised? ==> name !in cache && fetch.ClientError?
    ensures s.fetched <==> name !in cache
  {
    if name in cache then Served(Returned(cache[name]), cache, false)
    else
      match fetch
      case ClientError => Served(Raised, cache, true)
      case Fetched(ss) =>
        var parsed := ParseSecret(ss, decode);
        Served(Returned(parsed), cache[name := parsed], true)
  }

  /** A hit returns the stored value, a stored None included, without
      calling the client and without touching the cache. */
  lemma StepHit(cache: map<string, Value>, name: string, fetch: Fetch, decode: string -> Option<Value>)
    requires name in cache
    ensures var s := Step(cache, name, fetch, decode);
            s.outcome == Returned(cache[name]) && s.cache == cache && !s.fetched
  {
  }

  /** A miss calls the client; a successful fetch stores the parsed value
      under `name`, returns it, and leaves every other entry as it was. */
  lemma StepMiss(cache: map<string, Value>, name: string, ss: Option<string>, decode: string -> Option<Value>)
    requires name !in cache
    ensures var s := Step(cache, name, Fetched(ss), decode);
            && s.fetched
            && s.outcome == Returned(ParseSecret(ss, decode))
            && s.cache.Keys == cache.Keys + {name}
            && s.cache[name] == ParseSecret(ss, decode)
            && forall k :: k in cache ==> s.cache[k] == cache[k]
  {
  }

  /** A client error propagates and the cache stays as it was, so the
      name is still missing and the next call fetches again. */
  lemma StepFailure(cache: map<string, Value>, name: string, decode: string -> Option<Value>)
    requires name !in cache
    ensures var s := Step(cache, name, ClientError, decode);
            && s.outcome == Raised && s.cache == cache && s.fetched
            && name !in s.cache
  {
  }

  /** Whatever happens, no entry is removed or changed, only `name` can be
      added, and a call that raises changes nothing. */
  lemma StepFrame(cache: map<string, Value>, name: string, fetch: Fetch, decode: string -> Option<Value>)
    ensures var s := Step(cache, name, fetch, decode);
            && cache.Keys <= s.cache.Keys <= cache.Keys + {name}
            && (forall k :: k in cache ==> s.cache[k] == cache[k])
            && (s.outcome.Raised? ==> s.cache == cache)
            && (s.fetched <==> name !in cache)
  {
  }

  // ---------------------------------------------------------------------
  // Many calls over the life of one process

  /** A call: the name asked for and what the client would answer now. */
  datatype Call = Call(name: string, fetch: Fetch)

  datatype Trace = Trace(outcomes: seq<Outcome>, fetched: seq<bool>, cache: map<string, Value>)

  /** A sequence of calls of `get_secret` from one cache. */
  function Replay(cache: map<string, Value>, calls: seq<Call>, decode: string -> Option<Value>): (t: Trace)
    ensures |t.outcomes| == |calls| && |t.fetched| == |calls|
    decreases |calls|
  {
    if calls == [] then Trace([], [], cache)
    else
      var s := Step(cache, calls[0].name, calls[0].fetch, decode);
      var rest := Replay(s.cache, calls[1..], decode);
      Trace([s.outcome] + rest.outcomes, [s.fetched] + rest.fetched, rest.cache)
  }

  /** Once a name is cached with `v`, every later call for it returns `v`
      without calling the client, whatever the client would answer, and
      the entry is still `v` at the end. */
  lemma {:induction false} MemoStable(cache: map<string, Value>, name: string, calls: seq<Call>,
                                      decode: string -> Option<Value>)
    requires name in cache
    ensures var t := Replay(cache, calls, decode);
            && name in t.cache && t.cache[name] == cache[name]
            && forall i :: 0 <= i < |calls| && calls[i].name == name ==>
                 t.outcomes[i] == Returned(cache[name]) && !t.fetched[i]
    decreases |calls|
  {
    if calls != [] {
      var s := Step(cache, calls[0].name, calls[0].fetch, decode);
      StepFrame(cache, calls[0].name, calls[0].fetch, decode);
      MemoStable(s.cache, name, calls[1..], decode);
      var t := Replay(cache, calls, decode);
      var rest := Replay(s.cache, calls[1..], decode);
      forall i | 0 < i < |calls| && calls[i].name == name
        ensures t.outcomes[i] == Returned(cache[name]) && !t.fetched[i]
      {
        assert calls[1..][i - 1] == calls[i];
        assert t.outcomes[i] == rest.outcomes[i - 1];
        assert t.fetched[i] == rest.fetched[i - 1];
      }
    }
  }

  /** After the first successful call for a name, every later call for it
      returns the identical value. */
  lemma FirstSuccessSticks(cache: map<string, Value>, name: string, ss: Option<string>,
                           later: seq<Call>, decode: string -> Option<Value>)
    requires name !in cache
    ensures var t := Replay(cache, [Call(name, Fetched(ss))] + later, decode);
            && t.outcomes[0] == Returned(ParseSecret(ss, decode))
            && forall i :: 1 <= i < |later| + 1 && later[i - 1].name == name ==>
                 t.outcomes[i] == Returned(ParseSecret(ss, decode)) && !t.fetched[i]
  {
    var s := Step(cache, name, Fetched(ss), decode);
    StepMiss(cache, name, ss, decode);
    MemoStable(s.cache, name, later, decode);
    ReplayCons(cache, Call(name, Fetched(ss)), later, decode);
    var rest := Replay(s.cache, later, decode);
    var t := Replay(cache, [Call(name, Fetched(ss))] + later, decode);
    forall i | 1 <= i < |later| + 1 && later[i - 1].name == name
      ensures t.outcomes[i] == Returned(ParseSecret(ss, decode)) && !t.fetched[i]
    {
      assert t.outcomes[i] == rest.outcomes[i - 1] && t.fetched[i] == rest.fetched[i - 1];
    }
  }

  /** The first call of a sequence, then the rest from the cache it left. */
  lemma ReplayCons(cache: map<string, Value>, c: Call, later: seq<Call>, decode: string -> Option<Value>)
    ensures var s := Step(cache, c.name, c.fetch, decode);
            var rest := Replay(s.cache, later, decode);
            Replay(cache, [c] + later, decode) ==
              Trace([s.outcome] + rest.outcomes, [s.fetched] + rest.fetched, rest.cache)
  {
    assert ([c] + later)[0] == c && ([c] + later)[1..] == later;
  }

  /** Failures are not cached: a call that raises is followed, for the same
      name, by a call that asks the client again. */
  lemma FailureRetried(cache: map<string, Value>, name: string, next: Fetch,
                       decode: string -> Option<Value>)
    requires name !in cache
    ensures var t := Replay(cache, [Call(name, ClientError), Call(name, next)], decode);
            && t.outcomes[0] == Raised && t.fetched[0] && t.fetched[1]
            && t.outcomes[1] == Step(cache, name, next, decode).outcome
  {
    var calls := [Call(name, ClientError), Call(name, next)];
    assert calls[1..] == [Call(name, next)] && calls[1..][1..] == [];
  }

  // ---------------------------------------------------------------------
  // The cache as the module-level dict it is

  class SecretStore {
    /** `_secret_cache` / `_cached_secrets`. */
    var cache: map<string, Value>
    /** The names the secrets client was asked for, in order. */
    var fetchLog: seq<string>

    /** The empty dict at import time. */
    constructor()
      ensures cache == map[] && fetchLog == []
    {
      cache := map[];
      fetchLog := [];
    }

    /** `get_secret(name)`; `backend(name)` is what the client would answer. */
    method GetSecret(name: string, backend: string -> Fetch, decode: string -> Option<Value>)
      returns (o: Outcome)
      modifies this
      ensures var s := Step(old(cache), name, backend(name), decode);
              && o == s.outcome && cache == s.cache
              && fetchLog == old(fetchLog) + (if s.fetched then [name] else [])
    {
      if name in cache {
        return Returned(cache[name]);
      }
      fetchLog := fetchLog + [name];
      var resp := backend(name);
      if resp.ClientError? {
        return Raised;
      }
      var parsed := ParseSecret(resp.secretString, decode);
      cache := cache[name := parsed];
      return Returned(parsed);
    }

    /** Two calls for one name, the second with the client answering
        differently: once the first succeeded, the second returns the same
        value and asks the client nothing. */
    method GetTwice(name: string, first: string -> Fetch, second: string -> Fetch,
                    decode: string -> Option<Value>)
      returns (a: Outcome, b: Outcome)
      modifies this
      ensures a == Step(old(cache), name, first(name), decode).outcome
      ensures b == Step(Step(old(cache), name, first(name), decode).cache, name, second(name), decode).outcome
      ensures cache == Step(Step(old(cache), name, first(name), decode).cache, name, second(name), decode).cache
      ensures a.Returned? ==> b == a && fetchLog == old(fetchLog) + (if name in old(cache) then [] else [name])
      ensures a.Raised? ==> name !in old(cache) && b == Step(old(cache), name, second(name), decode).outcome
      ensures a.Raised? ==> fetchLog == old(fetchLog) + [name, name]
    {
      a := GetSecret(name, first, decode);
      b := GetSecret(name, second, decode);
    }
  }

  // ---------------------------------------------------------------------
  // Choosing the API key (app.py lines 100-108, csv_to_json.py lines 28-32)

  /** A dict secret gives its `OPENWEATHER_API_KEY` entry (None when
      absent); any other secret is the key itself. */
  function SelectApiKey(secret: Value): (key: Value)
    ensures secret.Obj? && Lookup(secret.fields, "OPENWEATHER_API_KEY").None? ==> key == Null
    ensures secret.Obj? && Lookup(secret.fields, "OPENWEATHER_API_KEY").Some? ==>
              key == Lookup(secret.fields, "OPENWEATHER_API_KEY").value
    ensures !secret.Obj? ==> key == secret
  {
    if secret.Obj? then
      match Lookup(secret.fields, "OPENWEATHER_API_KEY")
      case Some(k) => k
      case None => Null
    else secret
  }

  datatype Response = Response(statusCode: int, body: Value)

  /** How the weather handler goes on after reading the secret: it raises,
      answers without fetching anything, or fetches with `appid` set. */
  datatype Start = Propagate | Respond(response: Response) | FetchWeather(appid: Value)

  const MissingApiKey := Response(500, Obj([("error", Str("missing_api_key"))]))

  /** A raised lookup propagates; a returned secret answers 500
      `missing_api_key` or goes on to the fetch, never both. */
  function StartOf(secret: Outcome): (st: Start)
    ensures st.Propagate? <==> secret.Raised?
    ensures st.Respond? ==> secret.Returned? && st.response == MissingApiKey && !Truthy(SelectApiKey(secret.value))
    ensures st.FetchWeather? ==> Truthy(st.appid)
  {
    match secret
    case Raised => Propagate
    case Returned(s) =>
      var key := SelectApiKey(s);
      if !Truthy(key) then Respond(MissingApiKey) else FetchWeather(key)
  }

  /** The handler answers 500 `missing_api_key`, before any fetch, exactly
      when the selected key is falsy; otherwise the fetch uses that key. */
  lemma StartIff(secret: Value)
    ensures StartOf(Returned(secret)) == Respond(MissingApiKey) <==> !Truthy(SelectApiKey(secret))
    ensures StartOf(Returned(secret)).FetchWeather? ==>
              StartOf(Returned(secret)).appid == SelectApiKey(secret) && Truthy(SelectApiKey(secret))
    ensures !StartOf(Returned(secret)).Propagate?
  {
  }

  /** A secret stored without `SecretString` is cached as None; from then
      on every invocation answers `missing_api_key` and never asks the
      client again. */
  lemma MissingSecretStringSticks(cache: map<string, Value>, name: string, later: seq<Call>,
                                  decode: string -> Option<Value>)
    requires name !in cache
    ensures var t := Replay(cache, [Call(name, Fetched(None))] + later, decode);
            && StartOf(t.outcomes[0]) == Respond(MissingApiKey)
            && forall i :: 1 <= i < |later| + 1 && later[i - 1].name == name ==>
                 StartOf(t.outcomes[i]) == Respond(MissingApiKey) && !t.fetched[i]
  {
    FirstSuccessSticks(cache, name, None, later, decode);
  }

  /** The weather handler's opening (app.py lines 100-108), with `env`
      the value of `OPENWEATHER_SECRET_NAME` at import time. */
  method StartInvocation(store: SecretStore, env: Option<string>, backend: string -> Fetch,
                         decode: string -> Option<Value>)
    returns (s: Start)
    modifies store
    ensures var name := ConfiguredSecretName(env);
            var served := Step(old(store.cache), name, backend(name), decode);
            && s == StartOf(served.outcome) && store.cache == served.cache
            && store.fetchLog == old(store.fetchLog) + (if served.fetched then [name] else [])
  {
    var secret := store.GetSecret(ConfiguredSecretName(env), backend, decode);
    if secret.Raised? {
      return Propagate;
    }
    var key := SelectApiKey(secret.value);
    if !Truthy(key) {
      return Respond(MissingApiKey);
    }
    return FetchWeather(key);
  }

  /** The CSV handler's opening (csv_to_json.py lines 28-32): the key, or
      the client's error. */
  method CsvHandlerKey(store: SecretStore, backend: string -> Fetch, decode: string -> Option<Value>)
    returns (key: Outcome)
    modifies store
    ensures var served := Step(old(store.cache), DefaultSecretName, backend(DefaultSecretName), decode);
            && (served.outcome.Raised? ==> key.Raised?)
            && (served.outcome.Returned? ==> key == Returned(SelectApiKey(served.outcome.value)))
            && store.cache == served.cache
            && store.fetchLog == old(store.fetchLog) + (if served.fetched then [DefaultSecretName] else [])
  {
    var secret := store.GetSecret(DefaultSecretName, backend, decode);
    if secret.Raised? {
      return Raised;
    }
    return Returned(SelectApiKey(secret.value));
  }
}
