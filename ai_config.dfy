/**
 * The AI provider configuration: which backend (Gemini or OpenRouter) and which model
 * the bot uses, the catalogue of selectable models, the update rule the settings menu
 * applies, and the status record derived from the stored configuration and the
 * environment. The JSON file and the process environment are fields of `AiSettings`.
 */
module AiConfig {
  import opened Wrappers

  const Gemini := "gemini"
  const OpenRouter := "openrouter"
  const DefaultGeminiModel := "gemini-1.5-flash"
  const DefaultOpenRouterModel := "gpt-4"
  /** `json.dumps({"timestamp": "now"})`, the value written as `last_updated`. */
  const UpdateStamp := "{\"timestamp\": \"now\"}"
  const FailedSave := "Failed to save AI configuration"

  /** One entry of the model catalogue. */
  datatype ModelInfo = ModelInfo(id: string, name: string, description: string)

  /**
   * The configuration dict. The stored file may lack any key, so each is optional;
   * `lastUpdated` is `None` both for a missing key and for JSON `null`.
   */
  datatype Config = Config(
    provider: Option<string>,
    geminiModel: Option<string>,
    openrouterModel: Option<string>,
    lastUpdated: Option<string>)

  /** The environment variables the configuration reads; `None` is an unset variable. */
  datatype Env = Env(
    aiProvider: Option<string>,
    openrouterModel: Option<string>,
    geminiApiKey: Option<string>,
    openrouterApiKey: Option<string>)

  /** The dict `get_current_config` returns. */
  datatype Status = Status(
    provider: string,
    model: Option<string>,
    geminiConfigured: bool,
    openrouterConfigured: bool,
    providerConfigured: bool)

  /** Python truthiness of an optional string: present and non-empty. */
  predicate Truthy(s: Option<string>) {
    s.Some? && s.value != ""
  }

  // ---------------------------------------------------------------------------
  // The model catalogue

  const GeminiModels: seq<ModelInfo> := [
    ModelInfo("gemini-1.5-flash", "Gemini 1.5 Flash", "R\U{00E1}pido y eficiente"),
    ModelInfo("gemini-2.0-flash-exp", "Gemini 2.0 Flash", "Versi\U{00F3}n 2.0 r\U{00E1}pida"),
    ModelInfo("gemini-2.0-flash-thinking-exp", "Gemini 2.0 Flash Exp", "Versi\U{00F3}n 2.0 experimental")
  ]

  const OpenRouterModels: seq<ModelInfo> := [
    ModelInfo("openai/gpt-oss-20b:free", "GPT OSS 20B (Free)", "OpenAI GPT OSS 20B - Gratis"),
    ModelInfo("zhipuai/glm-4.5-air:free", "GLM 4.5 Air (Free)", "Z.AI GLM 4.5 Air - Gratis"),
    ModelInfo("qwen/qwen-3-coder:free", "Qwen3 Coder (Free)", "Qwen Qwen3 Coder - Gratis"),
    ModelInfo("moonshot/kimi-k2:free", "Kimi K2 (Free)", "MoonshotAI Kimi K2 - Gratis"),
    ModelInfo("deepseek/r1-0528:free", "DeepSeek R1 0528 (Free)", "DeepSeek R1 0528 - Gratis"),
    ModelInfo("google/gemma-3n-2b:free", "Gemma 3n 2B (Free)", "Google Gemma 3n 2B - Gratis"),
    ModelInfo("huggingfaceh4/zephyr-7b-beta:free", "Zephyr 7B Beta (Free)", "HuggingFace Zephyr 7B - Gratis"),
    ModelInfo("openchat/openchat-7b:free", "OpenChat 7B (Free)", "OpenChat 7B - Gratis"),
    ModelInfo("gryphe/mythomist-7b:free", "Mythomist 7B (Free)", "Gryphe Mythomist 7B - Gratis")
  ]

  const AvailableModels: map<string, seq<ModelInfo>> := map[Gemini := GeminiModels, OpenRouter := OpenRouterModels]

  /** `get_available_models`: the catalogue entry of a provider, empty for any other name. */
  function GetAvailableModels(provider: string): (r: seq<ModelInfo>)
    ensures r != [] <==> provider == Gemini || provider == OpenRouter
    ensures provider == Gemini ==> r == GeminiModels && |r| == 3 && r[0].id == DefaultGeminiModel
    ensures provider == OpenRouter ==> r == OpenRouterModels && |r| == 9
  {
    if provider in AvailableModels then AvailableModels[provider] else []
  }

  /** The default Gemini model is offered in the Gemini menu. */
  lemma DefaultGeminiModelOffered()
    ensures exists m :: m in GetAvailableModels(Gemini) && m.id == DefaultGeminiModel
  {
    assert GetAvailableModels(Gemini)[0] in GetAvailableModels(Gemini);
  }

  /** The default OpenRouter model is not in the OpenRouter menu: every id there is longer. */
  lemma DefaultOpenRouterModelNotOffered()
    ensures forall m :: m in GetAvailableModels(OpenRouter) ==> m.id != DefaultOpenRouterModel
  {
    forall m | m in GetAvailableModels(OpenRouter) ensures m.id != DefaultOpenRouterModel {
      assert |m.id| > |DefaultOpenRouterModel|;
    }
  }

  // ---------------------------------------------------------------------------
  // The configuration record

  /** `get_default_ai_config` under environment `env`. */
  function DefaultAiConfig(env: Env): (c: Config)
    ensures c.provider == Some(env.aiProvider.GetOr(Gemini))
    ensures c.geminiModel == Some(DefaultGeminiModel)
    ensures c.openrouterModel == Some(env.openrouterModel.GetOr(DefaultOpenRouterModel))
    ensures c.lastUpdated.None?
  {
    Config(Some(env.aiProvider.GetOr(Gemini)), Some(DefaultGeminiModel),
           Some(env.openrouterModel.GetOr(DefaultOpenRouterModel)), None)
  }

  /** `load_ai_config`: the stored file when there is a readable one, the defaults otherwise. */
  function LoadedConfig(stored: Option<Config>, env: Env): Config {
    stored.GetOr(DefaultAiConfig(env))
  }

  /** The configuration `update_ai_provider` builds before saving it. */
  function UpdatedConfig(c: Config, provider: string, model: Option<string>): (u: Config)
    ensures u.provider == Some(provider)
    ensures u.lastUpdated == Some(UpdateStamp)
    ensures provider == Gemini ==>
      u.geminiModel == Some(if Truthy(model) then model.value else DefaultGeminiModel)
      && u.openrouterModel == c.openrouterModel
    ensures provider == OpenRouter ==>
      u.openrouterModel == Some(if Truthy(model) then model.value else DefaultOpenRouterModel)
      && u.geminiModel == c.geminiModel
    ensures provider != Gemini && provider != OpenRouter ==>
      u.geminiModel == c.geminiModel && u.openrouterModel == c.openrouterModel
  {
    var withProvider := c.(provider := Some(provider));
    var withModel :=
      if provider == Gemini then withProvider.(geminiModel := Some(if Truthy(model) then model.value else DefaultGeminiModel))
      else if provider == OpenRouter then withProvider.(openrouterModel := Some(if Truthy(model) then model.value else DefaultOpenRouterModel))
      else withProvider;
    withModel.(lastUpdated := Some(UpdateStamp))
  }

  /** The environment after a successful update. */
  function UpdatedEnv(env: Env, provider: string, model: Option<string>): (e: Env)
    ensures e.aiProvider == Some(provider)
    ensures e.openrouterModel == if provider == OpenRouter && Truthy(model) then model else env.openrouterModel
    ensures e.geminiApiKey == env.geminiApiKey && e.openrouterApiKey == env.openrouterApiKey
  {
    var withProvider := env.(aiProvider := Some(provider));
    if provider == OpenRouter && Truthy(model) then withProvider.(openrouterModel := model) else withProvider
  }

  /** The status dict `get_current_config` derives from a configuration and the environment. */
  function CurrentStatus(c: Config, env: Env): (s: Status)
    ensures s.provider == c.provider.GetOr(Gemini)
    ensures s.geminiConfigured <==> Truthy(env.geminiApiKey)
    ensures s.openrouterConfigured <==> Truthy(env.openrouterApiKey)
    ensures s.model.Some? <==> s.provider == Gemini || s.provider == OpenRouter
    ensures s.provider == Gemini ==> s.model == Some(c.geminiModel.GetOr(DefaultGeminiModel))
    ensures s.provider == OpenRouter ==> s.model == Some(c.openrouterModel.GetOr(DefaultOpenRouterModel))
    ensures s.providerConfigured <==>
      (s.provider == Gemini && s.geminiConfigured) || (s.provider == OpenRouter && s.openrouterConfigured)
  {
    var geminiConfigured := Truthy(env.geminiApiKey);
    var openrouterConfigured := Truthy(env.openrouterApiKey);
    var provider := c.provider.GetOr(Gemini);
    var model :=
      if provider == Gemini then Some(c.geminiModel.GetOr(DefaultGeminiModel))
      else if provider == OpenRouter then Some(c.openrouterModel.GetOr(DefaultOpenRouterModel))
      else None;
    var providerConfigured :=
      if provider == Gemini then geminiConfigured
      else if provider == OpenRouter then openrouterConfigured
      else false;
    Status(provider, model, geminiConfigured, openrouterConfigured, providerConfigured)
  }

  /**
   * Choosing a model in the settings menu takes effect: after a successful update the
   * status names the chosen provider and model, and a falsy model selects the
   * provider's default. For an unknown provider there is no current model and the
   * provider never counts as configured.
   */
  lemma {:induction false} UpdateThenStatus(c: Config, env: Env, provider: string, model: Option<string>)
    ensures var s := CurrentStatus(UpdatedConfig(c, provider, model), UpdatedEnv(env, provider, model));
      && s.provider == provider
      && (provider == Gemini ==> s.model == Some(if Truthy(model) then model.value else DefaultGeminiModel))
      && (provider == OpenRouter ==> s.model == Some(if Truthy(model) then model.value else DefaultOpenRouterModel))
      && (provider != Gemini && provider != OpenRouter ==> s.model.None? && !s.providerConfigured)
      && (s.providerConfigured <==> s.model.Some? && Truthy(if provider == Gemini then env.geminiApiKey else env.openrouterApiKey))
  {
  }

  /** With no configuration file and no environment overrides the bot runs Gemini 1.5 Flash. */
  lemma DefaultStatus(env: Env)
    requires env.aiProvider.None?
    ensures CurrentStatus(LoadedConfig(None, env), env).provider == Gemini
    ensures CurrentStatus(LoadedConfig(None, env), env).model == Some(DefaultGeminiModel)
  {
  }

  /** The stored configuration file and the process environment. */
  class AiSettings {
    /** The contents of the configuration file; `None` when it is missing or unreadable. */
    var stored: Option<Config>
    var env: Env

    constructor(stored0: Option<Config>, env0: Env)
      ensures stored == stored0 && env == env0
    {
      stored := stored0;
      env := env0;
    }

    /**
     * `update_ai_provider`: the loaded configuration with the new provider and model is
     * saved and returned, and the environment follows it; a failed save (`saved` false)
     * raises and changes nothing.
     */
    method UpdateAiProvider(provider: string, model: Option<string>, saved: bool) returns (r: Result<Config, string>)
      modifies this
      ensures r.Ok? <==> saved
      ensures saved ==> r.value == UpdatedConfig(LoadedConfig(old(stored), old(env)), provider, model)
                        && stored == Some(r.value)
                        && env == UpdatedEnv(old(env), provider, model)
      ensures !saved ==> r == Err(FailedSave) && stored == old(stored) && env == old(env)
    {
      var config := LoadedConfig(stored, env);
      config := config.(provider := Some(provider));
      if provider == Gemini {
        config := config.(geminiModel := Some(if Truthy(model) then model.value else DefaultGeminiModel));
      } else if provider == OpenRouter {
        config := config.(openrouterModel := Some(if Truthy(model) then model.value else DefaultOpenRouterModel));
      }
      config := config.(lastUpdated := Some(UpdateStamp));
      if saved {
        stored := Some(config);
        env := env.(aiProvider := Some(provider));
        if provider == OpenRouter && Truthy(model) {
          env := env.(openrouterModel := model);
        }
        r := Ok(config);
      } else {
        r := Err(FailedSave);
      }
    }

    /** `get_current_config`. */
    function GetCurrentConfig(): (s: Status)
      reads this
      ensures s == CurrentStatus(LoadedConfig(stored, env), env)
    {
      CurrentStatus(LoadedConfig(stored, env), env)
    }
  }
}
