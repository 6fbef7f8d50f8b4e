/** Choice of the language-model provider, model and temperature from the
    process environment. The provider client constructors are not modelled:
    a successful construction is the configuration record `Llm`. */
module LlmFactory {
  import opened Wrappers
  import opened Environment
  import opened PyValue

  datatype Provider = OpenAI | Gemini {
    /** The provider's name, as callers and `DEFAULT_LLM_PROVIDER` spell it. */
    function Value(): string {
      match this
      case OpenAI => "openai"
      case Gemini => "gemini"
    }

    /** The environment variable holding the provider's API key. */
    function KeyVariable(): string {
      match this
      case OpenAI => "OPENAI_API_KEY"
      case Gemini => "GOOGLE_API_KEY"
    }
  }

  /** A configured language-model client. */
  datatype Llm = Llm(provider: Provider, model: string, temperature: real, apiKey: string) {
    /** `type(llm).__name__`. */
    function ClassName(): string {
      match provider
      case OpenAI => "OpenAI"
      case Gemini => "GoogleGenerativeAI"
    }
  }

  function LowerChar(c: char): char {
    if 'A' <= c <= 'Z' then (c as int + 32) as char else c
  }

  /** `s.lower()` on ASCII letters. */
  function Lower(s: string): (r: string)
    ensures |r| == |s|
    ensures forall i :: 0 <= i < |s| ==> r[i] == LowerChar(s[i])
  {
    seq(|s|, i requires 0 <= i < |s| => LowerChar(s[i]))
  }

  lemma LowerIdempotent(s: string)
    ensures Lower(Lower(s)) == Lower(s)
  {
  }

  /** The provider names are already lower case. */
  lemma LowerProviderName(p: Provider)
    ensures Lower(p.Value()) == p.Value()
  {
    var v := p.Value();
    assert forall i :: 0 <= i < |v| ==> 'a' <= v[i] <= 'z';
  }

  /** `_create_openai_llm`: needs `OPENAI_API_KEY`; the model defaults to gpt-3.5-turbo-instruct. */
  function CreateOpenAiLlm(env: Env, model: Option<string>, temperature: real): (r: Result<Llm, Exception>)
    ensures r.Err? <==> !IsSet(env, "OPENAI_API_KEY")
    ensures r.Err? ==> r.error == ValueError("OPENAI_API_KEY environment variable is required for OpenAI")
    ensures r.Ok? ==> r.value.provider == OpenAI && r.value.temperature == temperature && r.value.apiKey == env["OPENAI_API_KEY"]
    ensures r.Ok? ==> r.value.model == (if model.Some? then model.value else "gpt-3.5-turbo-instruct")
  {
    var key := GetEnv(env, "OPENAI_API_KEY");
    if key.None? || key.value == "" then
      Err(ValueError("OPENAI_API_KEY environment variable is required for OpenAI"))
    else
      Ok(Llm(OpenAI, model.GetOr("gpt-3.5-turbo-instruct"), temperature, key.value))
  }

  /** `_create_gemini_llm`: needs `GOOGLE_API_KEY`; the model defaults to gemini-pro. */
  function CreateGeminiLlm(env: Env, model: Option<string>, temperature: real): (r: Result<Llm, Exception>)
    ensures r.Err? <==> !IsSet(env, "GOOGLE_API_KEY")
    ensures r.Err? ==> r.error == ValueError("GOOGLE_API_KEY environment variable is required for Gemini")
    ensures r.Ok? ==> r.value.provider == Gemini && r.value.temperature == temperature && r.value.apiKey == env["GOOGLE_API_KEY"]
    ensures r.Ok? ==> r.value.model == (if model.Some? then model.value else "gemini-pro")
  {
    var key := GetEnv(env, "GOOGLE_API_KEY");
    if key.None? || key.value == "" then
      Err(ValueError("GOOGLE_API_KEY environment variable is required for Gemini"))
    else
      Ok(Llm(Gemini, model.GetOr("gemini-pro"), temperature, key.value))
  }

  /** The provider name `create_llm` dispatches on: the argument, or else
      `DEFAULT_LLM_PROVIDER`, or else "openai", lowercased. */
  function RequestedProvider(env: Env, provider: Option<string>): string {
    match provider
    case Some(p) => Lower(p)
    case None => Lower(Lower(GetEnvOr(env, "DEFAULT_LLM_PROVIDER", "openai")))
  }

  /** `LLMFactory.create_llm`. */
  function CreateLlm(env: Env, provider: Option<string>, model: Option<string>, temperature: real): (r: Result<Llm, Exception>)
    ensures r.Ok? ==> r.value.provider.Value() == RequestedProvider(env, provider)
    ensures r.Ok? ==> IsSet(env, r.value.provider.KeyVariable()) && r.value.temperature == temperature
    ensures RequestedProvider(env, provider) == "openai" ==> r == CreateOpenAiLlm(env, model, temperature)
    ensures RequestedProvider(env, provider) == "gemini" ==> r == CreateGeminiLlm(env, model, temperature)
    ensures RequestedProvider(env, provider) !in {"openai", "gemini"} ==>
      r == Err(ValueError("Unsupported LLM provider: " + RequestedProvider(env, provider) + ". Supported: ['openai', 'gemini']"))
  {
    var p := RequestedProvider(env, provider);
    if p == OpenAI.Value() then CreateOpenAiLlm(env, model, temperature)
    else if p == Gemini.Value() then CreateGeminiLlm(env, model, temperature)
    else Err(ValueError("Unsupported LLM provider: " + p + ". Supported: ['openai', 'gemini']"))
  }

  /** `get_available_providers`, as a value. */
  function AvailableProviders(env: Env): (r: seq<string>)
    ensures "openai" in r <==> IsSet(env, "OPENAI_API_KEY")
    ensures "gemini" in r <==> IsSet(env, "GOOGLE_API_KEY")
    ensures forall p :: p in r ==> p == "openai" || p == "gemini"
    ensures forall i, j :: 0 <= i < j < |r| ==> r[i] != r[j]
    ensures "openai" in r ==> r[0] == "openai"
  {
    (if IsSet(env, "OPENAI_API_KEY") then ["openai"] else [])
    + (if IsSet(env, "GOOGLE_API_KEY") then ["gemini"] else [])
  }

  /** `get_available_providers`: one conditional append per provider, openai first. */
  method GetAvailableProviders(env: Env) returns (available: seq<string>)
    ensures available == AvailableProviders(env)
    ensures "openai" in available <==> IsSet(env, "OPENAI_API_KEY")
    ensures "gemini" in available <==> IsSet(env, "GOOGLE_API_KEY")
  {
    available := [];
    if GetEnv(env, "OPENAI_API_KEY").GetOr("") != "" {
      available := available + [OpenAI.Value()];
    }
    if GetEnv(env, "GOOGLE_API_KEY").GetOr("") != "" {
      available := available + [Gemini.Value()];
    }
  }

  /** `get_default_provider`: the configured default when it is available,
      else the first available provider, else a ValueError. */
  function GetDefaultProvider(env: Env): (r: Result<string, Exception>)
    ensures r.Ok? <==> AvailableProviders(env) != []
    ensures r.Ok? ==> r.value in AvailableProviders(env)
    ensures Lower(GetEnvOr(env, "DEFAULT_LLM_PROVIDER", "")) in AvailableProviders(env) ==>
      r == Ok(Lower(GetEnvOr(env, "DEFAULT_LLM_PROVIDER", "")))
    ensures Lower(GetEnvOr(env, "DEFAULT_LLM_PROVIDER", "")) !in AvailableProviders(env) && r.Ok? ==>
      r.value == AvailableProviders(env)[0]
    ensures r.Err? ==> r.error == ValueError("No LLM providers are configured. Please set OPENAI_API_KEY or GOOGLE_API_KEY.")
  {
    var default := Lower(GetEnvOr(env, "DEFAULT_LLM_PROVIDER", ""));
    var available := AvailableProviders(env);
    if default in available then Ok(default)
    else if available != [] then Ok(available[0])
    else Err(ValueError("No LLM providers are configured. Please set OPENAI_API_KEY or GOOGLE_API_KEY."))
  }

  /** `LLMConfig.MODELS`. */
  const Models: map<string, map<string, string>> := map[
    "openai" := map[
      "default" := "gpt-3.5-turbo-instruct",
      "fast" := "gpt-3.5-turbo-instruct",
      "powerful" := "gpt-4",
      "cost_effective" := "gpt-3.5-turbo-instruct"],
    "gemini" := map[
      "default" := "gemini-pro",
      "fast" := "gemini-pro",
      "powerful" := "gemini-pro",
      "cost_effective" := "gemini-pro"]]

  /** `LLMConfig.TEMPERATURES`. */
  const Temperatures: map<string, real> := map[
    "deterministic" := 0.0,
    "balanced" := 0.1,
    "creative" := 0.3,
    "exploratory" := 0.7]

  /** `LLMConfig.get_model`. Its fallback argument `MODELS[provider]["default"]`
      is evaluated before the lookup, so an unknown provider raises KeyError. */
  function GetModel(provider: string, modelType: string): (r: Result<string, Exception>)
    ensures r.Err? <==> provider != "openai" && provider != "gemini"
    ensures r.Err? ==> r.error == KeyError(provider)
    ensures r.Ok? && modelType in Models[provider] ==> r.value == Models[provider][modelType]
    ensures r.Ok? && modelType !in Models[provider] ==> r.value == Models[provider]["default"]
    ensures provider == "gemini" ==> r == Ok("gemini-pro")
  {
    if provider !in Models then Err(KeyError(provider))
    else
      var table := Models[provider];
      var fallback := table["default"];
      Ok(if modelType in table then table[modelType] else fallback)
  }

  /** `LLMConfig.get_temperature`: an unknown kind falls back to "balanced". */
  function GetTemperature(tempType: string): (r: real)
    ensures tempType !in Temperatures ==> r == Temperatures["balanced"]
    ensures tempType in Temperatures ==> r == Temperatures[tempType]
    ensures 0.0 <= r <= 0.7
  {
    if tempType in Temperatures then Temperatures[tempType] else Temperatures["balanced"]
  }

  lemma UnknownTemperatureIsBalanced(tempType: string)
    requires tempType !in {"deterministic", "balanced", "creative", "exploratory"}
    ensures GetTemperature(tempType) == GetTemperature("balanced") == 0.1
  {
  }

  /** The model kind and temperature kind one agent role asks for. */
  datatype Profile = Profile(modelType: string, tempType: string)

  /** The role table of `create_llm_for_agent_role`, with its default entry. */
  function RoleProfile(role: string): Profile {
    match role
    case "triage" => Profile("fast", "deterministic")
    case "investigation" => Profile("default", "balanced")
    case "analysis" => Profile("powerful", "balanced")
    case "notification" => Profile("default", "deterministic")
    case _ => Profile("default", "balanced")
  }

  /** The provider a role's model is chosen for: the caller's, or the default provider. */
  function RoleProvider(env: Env, provider: Option<string>): Result<string, Exception> {
    match provider
    case Some(p) => Ok(p)
    case None => GetDefaultProvider(env)
  }

  /** The part of `create_llm_for_agent_role` after the provider is known:
      the role's model for that provider, then `create_llm` with it. */
  function RoleLlm(env: Env, role: string, p: string): (r: Result<Llm, Exception>)
    ensures r.Ok? <==> (p == "openai" && IsSet(env, "OPENAI_API_KEY")) || (p == "gemini" && IsSet(env, "GOOGLE_API_KEY"))
    ensures r.Ok? ==> r.value.provider.Value() == p
    ensures r.Ok? ==> GetModel(p, RoleProfile(role).modelType) == Ok(r.value.model)
    ensures r.Ok? ==> r.value.temperature == GetTemperature(RoleProfile(role).tempType)
    ensures p !in {"openai", "gemini"} ==> r == Err(KeyError(p))
    ensures p == "openai" && !IsSet(env, "OPENAI_API_KEY") ==>
      r == Err(ValueError("OPENAI_API_KEY environment variable is required for OpenAI"))
    ensures p == "gemini" && !IsSet(env, "GOOGLE_API_KEY") ==>
      r == Err(ValueError("GOOGLE_API_KEY environment variable is required for Gemini"))
  {
    var profile := RoleProfile(role);
    var model :- GetModel(p, profile.modelType);
    LowerProviderName(OpenAI);
    LowerProviderName(Gemini);
    assert Lower(p) == p;
    CreateLlm(env, Some(p), Some(model), GetTemperature(profile.tempType))
  }

  /** `create_llm_for_agent_role`. */
  function CreateLlmForAgentRole(env: Env, role: string, provider: Option<string>): (r: Result<Llm, Exception>)
    ensures r.Ok? ==> RoleProvider(env, provider).Ok?
    ensures r.Ok? ==> r.value.provider.Value() == RoleProvider(env, provider).value
    ensures r.Ok? ==> GetModel(r.value.provider.Value(), RoleProfile(role).modelType) == Ok(r.value.model)
    ensures r.Ok? ==> r.value.temperature == GetTemperature(RoleProfile(role).tempType)
    ensures provider.None? ==> (r.Ok? <==> AvailableProviders(env) != [])
    ensures provider.None? && r.Ok? ==> r.value.provider.Value() in AvailableProviders(env)
    ensures provider.None? && AvailableProviders(env) == [] ==> r == Err(GetDefaultProvider(env).error)
    ensures provider.Some? ==>
      (r.Ok? <==> (provider.value == "openai" && IsSet(env, "OPENAI_API_KEY"))
                  || (provider.value == "gemini" && IsSet(env, "GOOGLE_API_KEY")))
    ensures provider.Some? && provider.value !in {"openai", "gemini"} ==> r == Err(KeyError(provider.value))
    ensures provider == Some("openai") && !IsSet(env, "OPENAI_API_KEY") ==>
      r == Err(ValueError("OPENAI_API_KEY environment variable is required for OpenAI"))
    ensures provider == Some("gemini") && !IsSet(env, "GOOGLE_API_KEY") ==>
      r == Err(ValueError("GOOGLE_API_KEY environment variable is required for Gemini"))
  {
    match provider
    case Some(p) => RoleLlm(env, role, p)
    case None =>
      var p :- GetDefaultProvider(env);
      RoleLlm(env, role, p)
  }

  /** An unknown role is served like the investigation role (default model, balanced temperature). */
  lemma UnknownRoleIsInvestigation(env: Env, role: string, provider: Option<string>)
    requires role !in {"triage", "investigation", "analysis", "notification"}
    ensures CreateLlmForAgentRole(env, role, provider) == CreateLlmForAgentRole(env, "investigation", provider)
  {
  }

  /** Whether a role's model can be created does not depend on the role. */
  lemma RoleDoesNotDecideFailure(env: Env, role1: string, role2: string, provider: Option<string>)
    ensures CreateLlmForAgentRole(env, role1, provider).Ok? == CreateLlmForAgentRole(env, role2, provider).Ok?
  {
  }

  /** Triage and notification get the deterministic temperature, every other role the balanced one. */
  lemma RoleTemperature(env: Env, role: string, provider: Option<string>)
    requires CreateLlmForAgentRole(env, role, provider).Ok?
    ensures CreateLlmForAgentRole(env, role, provider).value.temperature
      == if role == "triage" || role == "notification" then 0.0 else 0.1
  {
    var profile := RoleProfile(role);
    if role == "triage" || role == "notification" {
      assert profile.tempType == "deterministic";
    } else {
      assert profile.tempType == "balanced";
    }
  }

  /** With only a Google key, the default provider is gemini, yet `create_llm`
      without a provider still asks for openai and fails. */
  lemma DefaultLlmIgnoresDefaultProvider()
    ensures GetDefaultProvider(map["GOOGLE_API_KEY" := "key"]) == Ok("gemini")
    ensures CreateLlm(map["GOOGLE_API_KEY" := "key"], None, None, 0.1)
      == Err(ValueError("OPENAI_API_KEY environment variable is required for OpenAI"))
  {
    var env := map["GOOGLE_API_KEY" := "key"];
    assert Lower(GetEnvOr(env, "DEFAULT_LLM_PROVIDER", "")) == "";
    assert Lower("openai") == "openai";
  }

  /** `create_llm` accepts a capitalised provider name, but the role path
      looks it up in the model table first and raises KeyError. */
  lemma CapitalisedProviderOnlyForCreateLlm()
    ensures CreateLlm(map["OPENAI_API_KEY" := "key"], Some("OpenAI"), None, 0.1).Ok?
    ensures CreateLlmForAgentRole(map["OPENAI_API_KEY" := "key"], "triage", Some("OpenAI")) == Err(KeyError("OpenAI"))
  {
    assert Lower("OpenAI") == "openai";
  }
}
