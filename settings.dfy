/** Application settings (src/legacylens/core/config/settings.py): a
    declared table of environment keys, each required, restricted to a few
    literals, or defaulted; the validator that turns an environment into a
    `Settings` record; and the one-slot cache behind `get_settings`. */
module Config {
  import opened Validation

  /** The process environment (and `.env` file) as already read. */
  type Env = map<string, string>

  const PineconeApiKey: string := "PINECONE_API_KEY"
  const VoyageApiKey: string := "VOYAGE_API_KEY"
  const AnthropicApiKey: string := "ANTHROPIC_API_KEY"
  const Environment: string := "ENVIRONMENT"

  /** The values `ENVIRONMENT` may take, and its default. */
  const EnvironmentKinds: seq<string> := ["dev", "staging", "prod"]
  const DefaultEnvironment: string := "dev"

  /** How one declared field is resolved from the environment. */
  datatype Rule =
    | Required(minLength: nat)                      // `Field(..., min_length=n)`
    | Choice(default: string, allowed: seq<string>) // a `Literal[...]` with a default
    | Optional(default: string)                     // a `str` with a default

  datatype FieldSpec = FieldSpec(name: string, rule: Rule)

  /** The declared fields of `Settings`, in declaration order. */
  const SettingsFields: seq<FieldSpec> := [
    FieldSpec(PineconeApiKey, Required(1)),
    FieldSpec(VoyageApiKey, Required(1)),
    FieldSpec(AnthropicApiKey, Required(1)),
    FieldSpec(Environment, Choice(DefaultEnvironment, EnvironmentKinds)),
    FieldSpec("PINECONE_INDEX_NAME", Optional("legacylens-index")),
    FieldSpec("NEO4J_URI", Optional("")),
    FieldSpec("NEO4J_USER", Optional("neo4j")),
    FieldSpec("NEO4J_PASSWORD", Optional("")),
    FieldSpec("REDIS_URL", Optional("")),
    FieldSpec("LANGSMITH_API_KEY", Optional("")),
    FieldSpec("LEGACYLENS_API_URL", Optional(""))
  ]

  const RequiredKeys: set<string> := {PineconeApiKey, VoyageApiKey, AnthropicApiKey}

  /** The names of all declared fields; every other key is ignored. */
  function FieldNames(fields: seq<FieldSpec>): set<string> {
    set i | 0 <= i < |fields| :: fields[i].name
  }

  /** A validated settings record. */
  datatype Settings = Settings(
    pineconeApiKey: string,
    voyageApiKey: string,
    anthropicApiKey: string,
    environment: string,
    pineconeIndexName: string,
    neo4jUri: string,
    neo4jUser: string,
    neo4jPassword: string,
    redisUrl: string,
    langsmithApiKey: string,
    legacylensApiUrl: string)

  /** What every validated record satisfies: the three keys are non-empty
      and the environment is one of the allowed kinds. */
  predicate ValidSettings(s: Settings) {
    && s.pineconeApiKey != ""
    && s.voyageApiKey != ""
    && s.anthropicApiKey != ""
    && s.environment in EnvironmentKinds
  }

  function Lookup(env: Env, key: string, default: string): string {
    if key in env then env[key] else default
  }

  /** Resolution of one declared field. */
  function CheckField(f: FieldSpec, env: Env): Result<string, FieldError> {
    match f.rule
    case Required(minLength) =>
      if f.name !in env then Failure(MissingField(f.name))
      else if |env[f.name]| < minLength then Failure(FieldError([Key(f.name)], StringTooShort(minLength)))
      else Success(env[f.name])
    case Choice(default, allowed) =>
      if f.name !in env then Success(default)
      else if env[f.name] in allowed then Success(env[f.name])
      else Failure(FieldError([Key(f.name)], LiteralError(allowed)))
    case Optional(default) =>
      Success(Lookup(env, f.name, default))
  }

  /** Resolution of a table of fields: it succeeds exactly when every field
      resolves, and then holds each field's value in its position; otherwise
      it reports the error of every failing field and nothing else. */
  function ValidateFields(fields: seq<FieldSpec>, env: Env): (r: Result<seq<string>, seq<FieldError>>)
    ensures r.Success? <==> forall i :: 0 <= i < |fields| ==> CheckField(fields[i], env).Success?
    ensures r.Success? ==> |r.value| == |fields|
    ensures r.Success? ==> forall i :: 0 <= i < |fields| ==> r.value[i] == CheckField(fields[i], env).value
    ensures r.Failure? ==> forall i :: 0 <= i < |fields| && CheckField(fields[i], env).Failure? ==> CheckField(fields[i], env).error in r.error
    ensures r.Failure? ==> forall e :: e in r.error ==> exists i :: 0 <= i < |fields| && CheckField(fields[i], env) == Failure(e)
  {
    if fields == [] then Success([])
    else
      var rest := ValidateFields(fields[1..], env);
      assert forall i :: 1 <= i < |fields| ==> fields[i] == fields[1..][i - 1];
      match (CheckField(fields[0], env), rest)
      case (Success(v), Success(vs)) => Success([v] + vs)
      case (Success(_), Failure(es)) => Failure(es)
      case (Failure(e), Success(_)) => Failure([e])
      case (Failure(e), Failure(es)) => Failure([e] + es)
  }

  predicate KeyPresent(env: Env, key: string) {
    key in env && env[key] != ""
  }

  predicate EnvironmentAccepted(env: Env) {
    Environment in env ==> env[Environment] in EnvironmentKinds
  }

  /** The record the declarations describe for an acceptable environment:
      each key's value when present, its default otherwise. */
  function Expected(env: Env): Settings {
    Settings(
      Lookup(env, PineconeApiKey, ""),
      Lookup(env, VoyageApiKey, ""),
      Lookup(env, AnthropicApiKey, ""),
      Lookup(env, Environment, DefaultEnvironment),
      Lookup(env, "PINECONE_INDEX_NAME", "legacylens-index"),
      Lookup(env, "NEO4J_URI", ""),
      Lookup(env, "NEO4J_USER", "neo4j"),
      Lookup(env, "NEO4J_PASSWORD", ""),
      Lookup(env, "REDIS_URL", ""),
      Lookup(env, "LANGSMITH_API_KEY", ""),
      Lookup(env, "LEGACYLENS_API_URL", ""))
  }

  /** The environments validation accepts. */
  predicate Accepted(env: Env) {
    && KeyPresent(env, PineconeApiKey)
    && KeyPresent(env, VoyageApiKey)
    && KeyPresent(env, AnthropicApiKey)
    && EnvironmentAccepted(env)
  }

  /** Every error a field reports is located at that field's name. */
  lemma FieldErrorLocated(f: FieldSpec, env: Env)
    ensures CheckField(f, env).Failure? ==> CheckField(f, env).error.loc == [Key(f.name)]
  {
  }

  lemma SettingsFieldsResolveIffAccepted(env: Env)
    ensures ValidateFields(SettingsFields, env).Success? <==> Accepted(env)
  {
    var fields := SettingsFields;
    assert CheckField(fields[0], env).Success? <==> KeyPresent(env, PineconeApiKey);
    assert CheckField(fields[1], env).Success? <==> KeyPresent(env, VoyageApiKey);
    assert CheckField(fields[2], env).Success? <==> KeyPresent(env, AnthropicApiKey);
    assert CheckField(fields[3], env).Success? <==> EnvironmentAccepted(env);
    if Accepted(env) {
      forall i | 4 <= i < |fields| ensures CheckField(fields[i], env).Success? {
        assert fields[i].rule.Optional? by {
          if i == 4 {} else if i == 5 {} else if i == 6 {} else if i == 7 {}
          else if i == 8 {} else if i == 9 {} else {}
        }
      }
    }
  }

  lemma SettingsFieldsValues(env: Env, vs: seq<string>)
    requires ValidateFields(SettingsFields, env) == Success(vs)
    ensures |vs| == 11
    ensures Settings(vs[0], vs[1], vs[2], vs[3], vs[4], vs[5], vs[6], vs[7], vs[8], vs[9], vs[10]) == Expected(env)
  {
  }

  /** `Settings()`: validation of the environment against the declared
      fields. It succeeds exactly when the three API keys are present and
      non-empty and `ENVIRONMENT`, if set, is an allowed kind; the record
      then holds the environment's values and the defaults. A failure names
      only declared fields. */
  function Validate(env: Env): (r: Result<Settings, seq<FieldError>>)
    ensures r.Success? <==> Accepted(env)
    ensures r.Success? ==> r.value == Expected(env) && ValidSettings(r.value)
    ensures r.Failure? ==> r.error != []
    ensures r.Failure? ==> forall e :: e in r.error ==> exists name :: name in FieldNames(SettingsFields) && e.loc == [Key(name)]
  {
    SettingsFieldsResolveIffAccepted(env);
    match ValidateFields(SettingsFields, env)
    case Failure(es) =>
      assert forall e :: e in es ==> exists name :: name in FieldNames(SettingsFields) && e.loc == [Key(name)] by {
        forall e | e in es ensures exists name :: name in FieldNames(SettingsFields) && e.loc == [Key(name)] {
          var i :| 0 <= i < |SettingsFields| && CheckField(SettingsFields[i], env) == Failure(e);
          FieldErrorLocated(SettingsFields[i], env);
          assert SettingsFields[i].name in FieldNames(SettingsFields);
        }
      }
      Failure(es)
    case Success(vs) =>
      SettingsFieldsValues(env, vs);
      Success(Settings(vs[0], vs[1], vs[2], vs[3], vs[4], vs[5], vs[6], vs[7], vs[8], vs[9], vs[10]))
  }

  /** A required key that is absent makes validation fail with a "missing"
      error for that key. */
  lemma MissingRequiredKeyFails(env: Env, key: string)
    requires key in RequiredKeys && key !in env
    ensures Validate(env).Failure?
    ensures MissingField(key) in Validate(env).error
  {
    var i := if key == PineconeApiKey then 0 else if key == VoyageApiKey then 1 else 2;
    assert CheckField(SettingsFields[i], env) == Failure(MissingField(key));
  }

  /** A required key set to the empty string fails `min_length=1`. */
  lemma EmptyRequiredKeyFails(env: Env, key: string)
    requires key in RequiredKeys && key in env && env[key] == ""
    ensures Validate(env).Failure?
    ensures FieldError([Key(key)], StringTooShort(1)) in Validate(env).error
  {
    var i := if key == PineconeApiKey then 0 else if key == VoyageApiKey then 1 else 2;
    assert CheckField(SettingsFields[i], env) == Failure(FieldError([Key(key)], StringTooShort(1)));
  }

  /** An `ENVIRONMENT` outside dev/staging/prod fails as a literal error. */
  lemma UnknownEnvironmentFails(env: Env)
    requires Environment in env && env[Environment] !in EnvironmentKinds
    ensures Validate(env).Failure?
    ensures FieldError([Key(Environment)], LiteralError(["dev", "staging", "prod"])) in Validate(env).error
  {
    assert CheckField(SettingsFields[3], env) == Failure(FieldError([Key(Environment)], LiteralError(EnvironmentKinds)));
  }

  /** The three API keys alone give the documented defaults for every other
      field, `ENVIRONMENT` included. */
  lemma DefaultsApplied(pinecone: string, voyage: string, anthropic: string)
    requires pinecone != "" && voyage != "" && anthropic != ""
    ensures Validate(map[PineconeApiKey := pinecone, VoyageApiKey := voyage, AnthropicApiKey := anthropic])
      == Success(Settings(pinecone, voyage, anthropic, "dev", "legacylens-index", "", "neo4j", "", "", "", ""))
  {
    var env := map[PineconeApiKey := pinecone, VoyageApiKey := voyage, AnthropicApiKey := anthropic];
    assert env.Keys == RequiredKeys;
    assert Accepted(env);
  }

  lemma {:induction false} ValidateFieldsIgnoresUnknownKey(fields: seq<FieldSpec>, env: Env, key: string, v: string)
    requires key !in FieldNames(fields)
    ensures ValidateFields(fields, env[key := v]) == ValidateFields(fields, env)
  {
    if fields != [] {
      assert fields[0].name in FieldNames(fields);
      assert CheckField(fields[0], env[key := v]) == CheckField(fields[0], env);
      assert FieldNames(fields[1..]) <= FieldNames(fields) by {
        forall name | name in FieldNames(fields[1..]) ensures name in FieldNames(fields) {
          var i :| 0 <= i < |fields[1..]| && fields[1..][i].name == name;
          assert fields[i + 1].name == name;
        }
      }
      ValidateFieldsIgnoresUnknownKey(fields[1..], env, key, v);
    }
  }

  /** A key that is not a declared field changes nothing: validation gives
      the same record, or the same errors, with or without it. */
  lemma UnknownKeyIgnored(env: Env, key: string, v: string)
    requires key !in FieldNames(SettingsFields)
    ensures Validate(env[key := v]) == Validate(env)
  {
    ValidateFieldsIgnoresUnknownKey(SettingsFields, env, key, v);
  }

  /** One `Settings` object: `get_settings` hands out references to it, so
      two calls agree exactly when they return the same object. */
  class SettingsInstance {
    const settings: Settings

    constructor (s: Settings)
      ensures settings == s
    {
      settings := s;
    }
  }

  /** `get_settings` with its `lru_cache(maxsize=1)`: one slot, filled by the
      first successful call and emptied by `cache_clear`. A failed
      validation is not cached. */
  class SettingsCache {
    var slot: Option<SettingsInstance>
    /** The environment the cached instance was validated from. */
    ghost var loadedFrom: Env

    ghost predicate Valid()
      reads this
    {
      slot.Some? ==> Validate(loadedFrom) == Success(slot.value.settings)
    }

    constructor ()
      ensures Valid() && slot == None
    {
      slot := None;
      loadedFrom := map[];
    }

    /** Returns the cached instance if there is one, whatever `env` now holds;
        otherwise validates `env` and caches a new instance on success. */
    method GetSettings(env: Env) returns (r: Result<SettingsInstance, seq<FieldError>>)
      requires Valid()
      modifies this
      ensures Valid()
      ensures r.Success? ==> ValidSettings(r.value.settings)
      ensures old(slot).Some? ==> r == Success(old(slot).value) && slot == old(slot)
      ensures old(slot).None? && Validate(env).Failure? ==> r == Failure(Validate(env).error) && slot == None
      ensures old(slot).None? && Validate(env).Success? ==>
        r.Success? && fresh(r.value) && r.value.settings == Validate(env).value && slot == Some(r.value)
    {
      if slot.Some? {
        return Success(slot.value);
      }
      match Validate(env)
      case Failure(es) =>
        r := Failure(es);
      case Success(s) =>
        var instance := new SettingsInstance(s);
        slot, loadedFrom := Some(instance), env;
        r := Success(instance);
    }

    /** `get_settings.cache_clear()`. */
    method CacheClear()
      modifies this
      ensures Valid() && slot == None
    {
      slot := None;
    }
  }

  /** Two calls with nothing in between return the same instance, even when
      the environment changed in between. */
  method RepeatedCallsShareInstance(env: Env, later: Env)
    returns (a: Result<SettingsInstance, seq<FieldError>>, b: Result<SettingsInstance, seq<FieldError>>)
    requires Validate(env).Success?
    ensures a.Success? && b == a
    ensures a.value.settings == Validate(env).value
  {
    var cache := new SettingsCache();
    a := cache.GetSettings(env);
    b := cache.GetSettings(later);
  }

  /** After `cache_clear` the next call validates the current environment
      and returns a new instance. */
  method ReloadAfterClear(env: Env, later: Env)
    returns (a: Result<SettingsInstance, seq<FieldError>>, b: Result<SettingsInstance, seq<FieldError>>)
    requires Validate(env).Success? && Validate(later).Success?
    ensures a.Success? && b.Success? && a.value != b.value
    ensures a.value.settings == Validate(env).value && b.value.settings == Validate(later).value
  {
    var cache := new SettingsCache();
    a := cache.GetSettings(env);
    cache.CacheClear();
    b := cache.GetSettings(later);
  }
}
