/** LLM key resolution of jc/secrets.py: which provider's API key is used,
    where it comes from, and which model is asked for.

    The process environment is a map from variable names to values (an
    absent name reads as None), the file system a map from paths to file
    contents (a path that cannot be read is absent), and the key locker the
    store modelled in the KeyLocker module, read with no passphrase argument. */
module Secrets {
  import opened Wrappers
  import opened Text
  import KeyLocker

  /** What key resolution reads. */
  datatype Context = Context(env: map<string, string>, files: map<string, string>, locker: KeyLocker.Store)

  /** The locker is well formed and reads its passphrase from the same
      environment: JC_SECRETS_PASSPHRASE. */
  ghost predicate ValidContext(ctx: Context) {
    KeyLocker.WellFormed(ctx.locker) &&
    ctx.locker.envPassphrase == Getenv(ctx.env, "JC_SECRETS_PASSPHRASE")
  }

  const FallbackOrder: seq<string> := ["openai", "openrouter", "huggingface"]

  /** PROVIDER_KEY_ENV, with `()` for a provider it does not list. */
  function KeyEnvNames(provider: string): seq<string> {
    if provider == "openai" then ["OPENAI_API_KEY"]
    else if provider == "openrouter" then ["OPENROUTER_API_KEY", "OPENROUTER_KEY"]
    else if provider == "huggingface" then ["HUGGINGFACE_API_KEY"]
    else []
  }

  /** MODEL_ENV_VARS. */
  function ModelEnvVar(provider: string): Option<string> {
    if provider == "openai" then Some("JC_OPENAI_MODEL")
    else if provider == "openrouter" then Some("JC_OPENROUTER_MODEL")
    else if provider == "huggingface" then Some("JC_HUGGINGFACE_MODEL")
    else None
  }

  /** MODEL_DEFAULTS, with the openrouter default for any other provider. */
  function DefaultModel(provider: string): string {
    if provider == "openai" then "gpt-4o-mini"
    else if provider == "huggingface" then "meta-llama/llama-3.1-8b-instruct"
    else "openai/gpt-4o-mini"
  }

  function Getenv(env: map<string, string>, name: string): Option<string> {
    if name in env then Some(env[name]) else None
  }

  /** `_normalize_provider`. */
  function NormalizeProvider(provider: Option<string>): Option<string> {
    if !KeyLocker.Given(provider) then None
    else
      var normalized := Lower(Strip(provider.value));
      if normalized == [] then None else Some(normalized)
  }

  /** None for no, empty or blank input; otherwise the stripped, lower-cased
      provider, which is what the key locker stores. */
  lemma NormalizeProviderShape(provider: Option<string>)
    ensures var r := NormalizeProvider(provider);
            (r.None? <==> provider.None? || IsBlank(provider.value)) &&
            (r.Some? ==> r.value == KeyLocker.SanitizeProvider(provider.value) && r.value != [] && IsLower(r.value))
  {
    if provider.Some? {
      KeyLocker.SanitizedProviderShape(provider.value);
    }
  }

  // ---------------------------------------------------------------------------
  // _load_env_value
  // ---------------------------------------------------------------------------

  /** The first listed variable that is set to a non-empty value. */
  function EnvValue(env: map<string, string>, names: seq<string>): (r: Option<string>)
    ensures r.Some? ==> r.value != [] && exists i :: 0 <= i < |names| && Getenv(env, names[i]) == r
    ensures r.None? ==> forall i :: 0 <= i < |names| ==> !KeyLocker.Given(Getenv(env, names[i]))
  {
    if names == [] then None
    else if KeyLocker.Given(Getenv(env, names[0])) then Getenv(env, names[0])
    else
      var r := EnvValue(env, names[1..]);
      assert forall i :: 1 <= i < |names| ==> names[i] == names[1..][i - 1];
      r
  }

  /** An earlier non-empty variable wins over every later one. */
  lemma {:induction false} EnvValueFirstWins(env: map<string, string>, names: seq<string>, i: nat)
    requires i < |names| && KeyLocker.Given(Getenv(env, names[i]))
    requires forall j :: 0 <= j < i ==> !KeyLocker.Given(Getenv(env, names[j]))
    ensures EnvValue(env, names) == Getenv(env, names[i])
  {
    if i > 0 {
      EnvValueFirstWins(env, names[1..], i - 1);
    }
  }

  /** `_load_env_value`: the loop over the names with its early return. */
  method LoadEnvValue(env: map<string, string>, names: seq<string>) returns (r: Option<string>)
    ensures r == EnvValue(env, names)
  {
    var i := 0;
    while i < |names|
      invariant 0 <= i <= |names|
      invariant EnvValue(env, names) == EnvValue(env, names[i..])
    {
      assert names[i..][1..] == names[i + 1..];
      var value := Getenv(env, names[i]);
      if KeyLocker.Given(value) {
        return value;
      }
      i := i + 1;
    }
    return None;
  }

  /** `_huggingface_key_file`: the stripped contents of the file that
      HUGGINGFACE_KEY_FILE names, when it is set and the file can be read. */
  function HuggingfaceKeyFile(ctx: Context): Option<string> {
    var path := Getenv(ctx.env, "HUGGINGFACE_KEY_FILE");
    if !KeyLocker.Given(path) || path.value !in ctx.files then None
    else Some(Strip(ctx.files[path.value]))
  }

  // ---------------------------------------------------------------------------
  // get_llm_key_info
  // ---------------------------------------------------------------------------

  datatype Source = Env | KeyFile | Locker

  /** LLMKeyInfo; all None when no key is found. */
  datatype LLMKeyInfo = LLMKeyInfo(apiKey: Option<string>, provider: Option<string>, source: Option<Source>,
                                   keyId: Option<string>)

  const NoKey := LLMKeyInfo(None, None, None, None)

  /** The locker errors `get_llm_key_info` catches: KeyError and ValueError.
      A wrong passphrase (InvalidToken) and a missing keyring module
      (RuntimeError) propagate. */
  predicate CaughtByKeyInfo(e: KeyLocker.LockerError) {
    e.Invalid? || e.NotFound? || e.PassphraseRequired? || e.SecretMissing?
  }

  /** The providers tried: the normalised candidate first, then the fallback
      order without it. */
  function KeyOrder(candidate: Option<string>): (order: seq<string>)
    ensures candidate.Some? ==> order != [] && order[0] == candidate.value
  {
    (if candidate.Some? then [candidate.value] else []) + Without(FallbackOrder, candidate)
  }

  /** `[entry for entry in s if entry != candidate]`. */
  function Without(s: seq<string>, candidate: Option<string>): (r: seq<string>)
    ensures forall x :: x in r <==> x in s && candidate != Some(x)
    ensures |r| <= |s|
  {
    if s == [] then []
    else (if candidate == Some(s[0]) then [] else [s[0]]) + Without(s[1..], candidate)
  }

  /** With no usable provider argument the fallback order is tried as it stands. */
  lemma {:induction false} WithoutNothing(s: seq<string>)
    ensures Without(s, None) == s
  {
    if s != [] {
      WithoutNothing(s[1..]);
    }
  }

  /** Dropping entries keeps a list free of repeats. */
  lemma {:induction false} WithoutDistinct(s: seq<string>, candidate: Option<string>)
    requires Distinct(s)
    ensures Distinct(Without(s, candidate))
  {
    if s != [] {
      assert Distinct(s[1..]) by {
        forall i, j | 0 <= i < j < |s[1..]| ensures s[1..][i] != s[1..][j] {
          assert s[1..][i] == s[i + 1] && s[1..][j] == s[j + 1];
        }
      }
      WithoutDistinct(s[1..], candidate);
      assert s[0] !in s[1..] by {
        forall i | 0 <= i < |s[1..]| ensures s[1..][i] != s[0] {
          assert s[1..][i] == s[i + 1];
        }
      }
    }
  }

  /** The candidate is tried first and once, and every fallback provider once after it. */
  lemma KeyOrderShape(candidate: Option<string>)
    ensures var order := KeyOrder(candidate);
            Distinct(order) &&
            (forall p :: p in FallbackOrder ==> p in order) &&
            (forall p :: p in order ==> p in FallbackOrder || Some(p) == candidate) &&
            (candidate.None? ==> order == FallbackOrder)
  {
    assert Distinct(FallbackOrder);
    WithoutDistinct(FallbackOrder, candidate);
    WithoutNothing(FallbackOrder);
  }

  /** The key locker step for one provider: its first record, then that
      record's secret. KeyError and ValueError make it yield nothing. */
  function LockerHit(ctx: Context, name: string): (r: Result<Option<LLMKeyInfo>, KeyLocker.LockerError>)
    requires ValidContext(ctx)
    ensures r.Ok? && r.value.Some? ==>
              r.value.value.provider == Some(name) && KeyLocker.Given(r.value.value.apiKey) &&
              r.value.value.source == Some(Locker) && r.value.value.keyId.Some?
    ensures r.Err? ==> !CaughtByKeyInfo(r.error)
  {
    match KeyLocker.FindSpec(ctx.locker, name, None)
    case Err(e) => if CaughtByKeyInfo(e) then Ok(None) else Err(e)
    case Ok(entry) =>
      if entry.None? then Ok(None)
      else
        match KeyLocker.SecretSpec(ctx.locker, entry.value.id, None)
        case Err(e) => if CaughtByKeyInfo(e) then Ok(None) else Err(e)
        case Ok(secret) => Ok(Some(LLMKeyInfo(Some(secret), Some(name), Some(Locker), Some(entry.value.id))))
  }

  /** What one provider of the loop yields: a key, nothing (go on), or an
      exception that propagates. Env variables come first, then the key file
      (huggingface only), then the key locker. */
  function ProviderHit(ctx: Context, name: string): (r: Result<Option<LLMKeyInfo>, KeyLocker.LockerError>)
    requires ValidContext(ctx)
    ensures r.Ok? && r.value.Some? ==>
              var info := r.value.value;
              info.provider == Some(name) && KeyLocker.Given(info.apiKey) && info.source.Some? &&
              (info.keyId.None? <==> info.source != Some(Locker))
    ensures r.Err? ==> !CaughtByKeyInfo(r.error)
  {
    var key := EnvValue(ctx.env, KeyEnvNames(name));
    if key.Some? then Ok(Some(LLMKeyInfo(key, Some(name), Some(Env), None)))
    else
      var fileKey := if name == "huggingface" then HuggingfaceKeyFile(ctx) else None;
      if KeyLocker.Given(fileKey) then Ok(Some(LLMKeyInfo(fileKey, Some("huggingface"), Some(KeyFile), None)))
      else LockerHit(ctx, name)
  }

  /** The loop of `get_llm_key_info` over `order`. */
  function KeyInfoFrom(ctx: Context, order: seq<string>): Result<LLMKeyInfo, KeyLocker.LockerError>
    requires ValidContext(ctx)
  {
    if order == [] then Ok(NoKey)
    else
      match ProviderHit(ctx, order[0])
      case Err(e) => Err(e)
      case Ok(hit) => if hit.Some? then Ok(hit.value) else KeyInfoFrom(ctx, order[1..])
  }

  /** One turn of the loop. */
  lemma KeyInfoFromStep(ctx: Context, order: seq<string>)
    requires ValidContext(ctx) && order != []
    ensures var hit := ProviderHit(ctx, order[0]);
            KeyInfoFrom(ctx, order) ==
              if hit.Err? then Err(hit.error) else if hit.value.Some? then Ok(hit.value.value)
              else KeyInfoFrom(ctx, order[1..])
  {
  }

  /** `get_llm_key_info(provider)`. */
  function KeyInfoSpec(ctx: Context, provider: Option<string>): Result<LLMKeyInfo, KeyLocker.LockerError>
    requires ValidContext(ctx)
  {
    KeyInfoFrom(ctx, KeyOrder(NormalizeProvider(provider)))
  }

  /** The position of the first provider in `order` that yields a key or
      raises; `|order|` when every provider yields nothing. */
  function FirstDecisive(ctx: Context, order: seq<string>): (i: nat)
    requires ValidContext(ctx)
    ensures i <= |order|
    ensures forall j :: 0 <= j < i ==> ProviderHit(ctx, order[j]) == Ok(None)
    ensures i < |order| ==> ProviderHit(ctx, order[i]) != Ok(None)
  {
    if order == [] || ProviderHit(ctx, order[0]) != Ok(None) then 0
    else
      var i := 1 + FirstDecisive(ctx, order[1..]);
      assert forall j :: 1 <= j < |order| ==> order[j] == order[1..][j - 1];
      i
  }

  /** `get_llm_key_info` returns the key of the first provider that has one,
      or raises what that provider raised; when every provider yields
      nothing the result is all None. */
  lemma {:induction false} KeyInfoIsFirstHit(ctx: Context, order: seq<string>)
    requires ValidContext(ctx)
    ensures var i := FirstDecisive(ctx, order);
            var r := KeyInfoFrom(ctx, order);
            (i == |order| ==> r == Ok(NoKey)) &&
            (i < |order| ==> var hit := ProviderHit(ctx, order[i]);
                             (hit.Err? ==> r == Err(hit.error)) && (hit.Ok? ==> r == Ok(hit.value.value)))
  {
    if order != [] && ProviderHit(ctx, order[0]) == Ok(None) {
      KeyInfoIsFirstHit(ctx, order[1..]);
      assert FirstDecisive(ctx, order) == 1 + FirstDecisive(ctx, order[1..]);
      if FirstDecisive(ctx, order) < |order| {
        assert order[FirstDecisive(ctx, order)] == order[1..][FirstDecisive(ctx, order[1..])];
      }
    }
  }

  /** Env beats the key file, which beats the key locker: a provider with a
      listed variable set yields that value from "env" with no key id. */
  lemma EnvWinsForProvider(ctx: Context, name: string)
    requires ValidContext(ctx) && EnvValue(ctx.env, KeyEnvNames(name)).Some?
    ensures ProviderHit(ctx, name) == Ok(Some(LLMKeyInfo(EnvValue(ctx.env, KeyEnvNames(name)), Some(name), Some(Env), None)))
  {
  }

  /** With no huggingface variable set and a non-empty key file, huggingface
      yields the file's stripped contents from "file". */
  lemma KeyFileBeatsLocker(ctx: Context)
    requires ValidContext(ctx) && EnvValue(ctx.env, KeyEnvNames("huggingface")).None?
    requires KeyLocker.Given(HuggingfaceKeyFile(ctx))
    ensures ProviderHit(ctx, "huggingface") == Ok(Some(LLMKeyInfo(HuggingfaceKeyFile(ctx), Some("huggingface"), Some(KeyFile), None)))
  {
  }

  /** A key locker hit is the earliest record with the sanitised provider:
      it carries that record's id, and its key is what `get_secret` returns
      for that id. */
  lemma LockerHitCarriesId(ctx: Context, name: string)
    requires ValidContext(ctx)
    requires var r := ProviderHit(ctx, name); r.Ok? && r.value.Some? && r.value.value.source == Some(Locker)
    ensures var info := ProviderHit(ctx, name).value.value;
            var found := KeyLocker.FindSpec(ctx.locker, name, None);
            found.Ok? && found.value.Some? && info.keyId == Some(found.value.value.id) &&
            KeyLocker.SecretSpec(ctx.locker, found.value.value.id, None) == Ok(info.apiKey.value) &&
            found.value.value.provider == KeyLocker.SanitizeProvider(name) &&
            forall id :: id in ctx.locker.meta && ctx.locker.meta[id].provider == found.value.value.provider ==>
                           found.value.value.createdAt <= ctx.locker.meta[id].createdAt
  {
    KeyLocker.FindReturnsEarliestMatch(ctx.locker, name, None);
  }

  /** Without a keyring and without JC_SECRETS_PASSPHRASE listing the keys
      raises a ValueError, which is caught: the provider yields nothing. */
  lemma LockedStoreYieldsNothing(ctx: Context, name: string)
    requires ValidContext(ctx) && !ctx.locker.keyringAvailable && !KeyLocker.Given(ctx.locker.envPassphrase)
    ensures LockerHit(ctx, name) == Ok(None)
  {
  }

  /** A record stored in the keyring, read on a machine without the keyring
      module (the keys listed through JC_SECRETS_PASSPHRASE), raises the
      RuntimeError, which `get_llm_key_info` does not catch. */
  lemma MissingKeyringPropagates(ctx: Context, name: string)
    requires ValidContext(ctx) && !ctx.locker.keyringAvailable && KeyLocker.Given(ctx.locker.envPassphrase)
    requires var found := KeyLocker.FindSpec(ctx.locker, name, None);
             found.Ok? && found.value.Some? && found.value.value.storage == KeyLocker.Keyring
    ensures LockerHit(ctx, name) == Err(KeyLocker.KeyringUnavailable)
  {
    var found := KeyLocker.FindSpec(ctx.locker, name, None);
    KeyLocker.FindReturnsEarliestMatch(ctx.locker, name, None);
  }

  /** `get_llm_key_info`: the order is built, then the providers are tried. */
  method GetLlmKeyInfo(ctx: Context, provider: Option<string>) returns (r: Result<LLMKeyInfo, KeyLocker.LockerError>)
    requires ValidContext(ctx)
    ensures r == KeyInfoSpec(ctx, provider)
  {
    var order := BuildOrder(NormalizeProvider(provider));
    r := TryProviders(ctx, order);
  }

  /** The order of `get_llm_key_info`, built with append and extend. */
  method BuildOrder(candidate: Option<string>) returns (order: seq<string>)
    ensures order == KeyOrder(candidate)
  {
    order := [];
    if candidate.Some? {
      order := order + [candidate.value];
    }
    order := order + Without(FallbackOrder, candidate);
  }

  /** The loop of `get_llm_key_info`, with its early returns. */
  method TryProviders(ctx: Context, order: seq<string>) returns (r: Result<LLMKeyInfo, KeyLocker.LockerError>)
    requires ValidContext(ctx)
    ensures r == KeyInfoFrom(ctx, order)
  {
    var i := 0;
    while i < |order|
      invariant 0 <= i <= |order|
      invariant KeyInfoFrom(ctx, order) == KeyInfoFrom(ctx, order[i..])
    {
      var hit := ProviderHit(ctx, order[i]);
      KeyInfoFromStep(ctx, order[i..]);
      if hit.Err? {
        return Err(hit.error);
      } else if hit.value.Some? {
        return Ok(hit.value.value);
      }
      assert order[i..][1..] == order[i + 1..];
      i := i + 1;
    }
    return Ok(NoKey);
  }

  // ---------------------------------------------------------------------------
  // get_effective_provider and get_llm_model
  // ---------------------------------------------------------------------------

  /** `_provider_has_key`: a listed variable, the huggingface key file, or a
      key locker record; a ValueError from the locker counts as no key. */
  predicate ProviderHasKey(ctx: Context, provider: string)
    requires ValidContext(ctx)
  {
    EnvValue(ctx.env, KeyEnvNames(provider)).Some? ||
    (provider == "huggingface" && KeyLocker.Given(HuggingfaceKeyFile(ctx))) ||
    (var found := KeyLocker.FindSpec(ctx.locker, provider, None); found.Ok? && found.value.Some?)
  }

  /** The first provider of `order` with a key, if any. */
  function FirstWithKey(ctx: Context, order: seq<string>): (r: Option<string>)
    requires ValidContext(ctx)
    ensures r.Some? ==> r.value in order && ProviderHasKey(ctx, r.value)
    ensures r.Some? ==> exists i :: 0 <= i < |order| && order[i] == r.value &&
                                    forall j :: 0 <= j < i ==> !ProviderHasKey(ctx, order[j])
    ensures r.None? ==> forall p :: p in order ==> !ProviderHasKey(ctx, p)
  {
    if order == [] then None
    else if ProviderHasKey(ctx, order[0]) then Some(order[0])
    else
      var r := FirstWithKey(ctx, order[1..]);
      if r.Some? then
        var k :| 0 <= k < |order[1..]| && order[1..][k] == r.value &&
                 forall j :: 0 <= j < k ==> !ProviderHasKey(ctx, order[1..][j]);
        assert order[k + 1] == r.value;
        assert forall j :: 0 <= j < k + 1 ==> !ProviderHasKey(ctx, order[j]) by {
          forall j | 0 <= j < k + 1 ensures !ProviderHasKey(ctx, order[j]) {
            if j > 0 {
              assert order[j] == order[1..][j - 1];
            }
          }
        }
        r
      else r
  }

  /** `get_effective_provider()`. */
  function EffectiveProviderSpec(ctx: Context): string
    requires ValidContext(ctx)
  {
    var override := NormalizeProvider(Getenv(ctx.env, "JC_PROVIDER"));
    if override.Some? && ProviderHasKey(ctx, override.value) then override.value
    else
      var first := FirstWithKey(ctx, FallbackOrder);
      if first.Some? then first.value else "openrouter"
  }

  /** JC_PROVIDER is honoured exactly when that provider has a key; otherwise
      the first fallback provider with a key is chosen, else "openrouter". */
  lemma EffectiveProviderChoice(ctx: Context)
    requires ValidContext(ctx)
    ensures var override := NormalizeProvider(Getenv(ctx.env, "JC_PROVIDER"));
            var p := EffectiveProviderSpec(ctx);
            (override.Some? && ProviderHasKey(ctx, override.value) ==> p == override.value) &&
            (!(override.Some? && ProviderHasKey(ctx, override.value)) ==>
               p in FallbackOrder &&
               (ProviderHasKey(ctx, p) || (p == "openrouter" && forall q :: q in FallbackOrder ==> !ProviderHasKey(ctx, q))))
    ensures var override := NormalizeProvider(Getenv(ctx.env, "JC_PROVIDER"));
            var p := EffectiveProviderSpec(ctx);
            !(override.Some? && ProviderHasKey(ctx, override.value)) ==>
              (ProviderHasKey(ctx, "openai") ==> p == "openai") &&
              (!ProviderHasKey(ctx, "openai") && ProviderHasKey(ctx, "openrouter") ==> p == "openrouter") &&
              (!ProviderHasKey(ctx, "openai") && !ProviderHasKey(ctx, "openrouter") ==> p == (if ProviderHasKey(ctx, "huggingface") then "huggingface" else "openrouter"))
  {
    FallbackFirst(ctx);
  }

  /** The first fallback provider with a key, spelled out. */
  lemma FallbackFirst(ctx: Context)
    requires ValidContext(ctx)
    ensures FirstWithKey(ctx, FallbackOrder) ==
              if ProviderHasKey(ctx, "openai") then Some("openai")
              else if ProviderHasKey(ctx, "openrouter") then Some("openrouter")
              else if ProviderHasKey(ctx, "huggingface") then Some("huggingface")
              else None
  {
    var o := FallbackOrder;
    assert o[0] == "openai" && o[1..] == ["openrouter", "huggingface"];
    assert o[1..][0] == "openrouter" && o[1..][1..] == ["huggingface"];
    assert ["huggingface"][0] == "huggingface" && ["huggingface"][1..] == [];
  }

  /** `get_effective_provider`, with its loop over the fallback order. */
  method GetEffectiveProvider(ctx: Context) returns (p: string)
    requires ValidContext(ctx)
    ensures p == EffectiveProviderSpec(ctx)
  {
    var override := NormalizeProvider(Getenv(ctx.env, "JC_PROVIDER"));
    if override.Some? && ProviderHasKey(ctx, override.value) {
      return override.value;
    }
    var i := 0;
    while i < |FallbackOrder|
      invariant 0 <= i <= |FallbackOrder|
      invariant FirstWithKey(ctx, FallbackOrder) == FirstWithKey(ctx, FallbackOrder[i..])
    {
      assert FallbackOrder[i..][1..] == FallbackOrder[i + 1..];
      if ProviderHasKey(ctx, FallbackOrder[i]) {
        return FallbackOrder[i];
      }
      i := i + 1;
    }
    return "openrouter";
  }

  /** `get_llm_model(provider)`. */
  function LlmModel(ctx: Context, provider: Option<string>): string
    requires ValidContext(ctx)
  {
    var normalized := NormalizeProvider(provider);
    var candidate := if normalized.Some? then normalized.value else EffectiveProviderSpec(ctx);
    var envVar := ModelEnvVar(candidate);
    if envVar.Some? && KeyLocker.Given(Getenv(ctx.env, envVar.value)) then ctx.env[envVar.value]
    else DefaultModel(candidate)
  }

  /** A set model variable of the provider wins; otherwise its default, and
      the openrouter default for a provider without one. */
  lemma LlmModelChoice(ctx: Context, provider: string)
    requires ValidContext(ctx) && !IsBlank(provider)
    ensures var p := KeyLocker.SanitizeProvider(provider);
            var m := LlmModel(ctx, Some(provider));
            (ModelEnvVar(p).Some? && KeyLocker.Given(Getenv(ctx.env, ModelEnvVar(p).value)) ==> m == ctx.env[ModelEnvVar(p).value]) &&
            (ModelEnvVar(p).None? ==> m == "openai/gpt-4o-mini") &&
            (ModelEnvVar(p).Some? && !KeyLocker.Given(Getenv(ctx.env, ModelEnvVar(p).value)) ==> m == DefaultModel(p))
  {
    NormalizeProviderShape(Some(provider));
  }

  /** Without a provider, or with a blank one, the model is chosen for the
      effective provider: its set model variable, else its default, else the
      openrouter default. */
  lemma LlmModelDefault(ctx: Context, provider: Option<string>)
    requires ValidContext(ctx) && (provider.None? || IsBlank(provider.value))
    ensures var p := EffectiveProviderSpec(ctx);
            var m := LlmModel(ctx, provider);
            (ModelEnvVar(p).Some? && KeyLocker.Given(Getenv(ctx.env, ModelEnvVar(p).value)) ==> m == ctx.env[ModelEnvVar(p).value]) &&
            (ModelEnvVar(p).None? ==> m == "openai/gpt-4o-mini") &&
            (ModelEnvVar(p).Some? && !KeyLocker.Given(Getenv(ctx.env, ModelEnvVar(p).value)) ==> m == DefaultModel(p))
  {
    NormalizeProviderShape(provider);
  }
}
