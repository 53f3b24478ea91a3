/**
 * Model selection of `src/config.rs`: which configured model a run uses,
 * what it falls back to, and how a `$NAME` API key is read from the
 * environment. Costs are carried through unchanged and never computed with.
 */
module Config {
  import opened Wrappers

  const OpenRouterUrl := "https://openrouter.ai/api/v1/chat/completions"
  const DefaultModel := "moonshotai/kimi-k2"
  const DefaultPromptCost: real := 0.60
  const DefaultCompletionCost: real := 2.50
  const DefaultMaxTokens: nat := 16384

  /** One configured model; in a resolved configuration, the one a run uses. */
  datatype ModelConfig = ModelConfig(
    code: string, model: string, promptCost: real, completionCost: real,
    apiUrl: Option<string>, apiKey: Option<string>, maxTokens: Option<nat>, provider: Option<string>)

  /** The configuration file's contents, each part optional. */
  datatype Config = Config(models: Option<seq<ModelConfig>>, rules: Option<seq<string>>)

  /** The command line as far as the core reads it: `-f`, `-o`, `-m` and the instruction. */
  datatype Cli = Cli(files: seq<string>, output: Option<string>, model: Option<string>, instruction: string)

  /** The process environment: the variables that are set, by name. */
  type Env = map<string, string>

  /** The code of the first configured model, if any model is configured. */
  function FirstCode(config: Config): Option<string> {
    match config.models
    case Some(models) => if models != [] then Some(models[0].code) else None
    case None => None
  }

  /** `get_selected_model_code`: the command line's choice, else the first configured model, else the default. */
  function SelectedModelCode(args: Cli, config: Config): (code: string)
    ensures args.model.Some? ==> code == args.model.value
    ensures args.model.None? && config.models.Some? && config.models.value != []
            ==> code == config.models.value[0].code
    ensures args.model.None? && (config.models.None? || config.models.value == []) ==> code == DefaultModel
  {
    (match args.model case Some(m) => Some(m) case None => FirstCode(config)).GetOr(DefaultModel)
  }

  /** `iter().find` on the code: the first model with that code. */
  function FindModel(models: seq<ModelConfig>, code: string): (r: Option<ModelConfig>)
    ensures r.None? <==> forall i :: 0 <= i < |models| ==> models[i].code != code
    ensures r.Some? ==> exists i :: 0 <= i < |models| && models[i] == r.value && r.value.code == code
                                    && forall j :: 0 <= j < i ==> models[j].code != code
  {
    if models == [] then None
    else if models[0].code == code then Some(models[0])
    else
      var rest := FindModel(models[1..], code);
      assert forall i :: 1 <= i < |models| ==> models[i] == models[1..][i - 1];
      rest
  }

  /**
   * `resolve_env_token`: a token starting with '$' names an environment
   * variable and stands for its value when it is set; any other token, and
   * one naming an unset variable, stands for itself.
   */
  function ResolveEnvToken(token: string, env: Env): (r: string)
    ensures r != token ==> |token| > 0 && token[0] == '$' && token[1..] in env && r == env[token[1..]]
    ensures |token| > 0 && token[0] == '$' && token[1..] in env ==> r == env[token[1..]]
  {
    if |token| > 0 && token[0] == '$' then
      var name := token[1..];
      if name in env then env[name] else token
    else token
  }

  /** The configured model a run uses: the first whose code is the selected one. */
  function Matched(args: Cli, config: Config): Option<ModelConfig> {
    match config.models
    case Some(models) => FindModel(models, SelectedModelCode(args, config))
    case None => None
  }

  /**
   * `get_model_config`: the selected code, with the matched model's settings
   * (its API key resolved against the environment), or the defaults and no
   * settings when no configured model has that code.
   */
  function GetModelConfig(args: Cli, config: Config, env: Env): (r: ModelConfig)
    ensures r.code == SelectedModelCode(args, config)
    ensures Matched(args, config).None? ==>
              r.model == DefaultModel && r.promptCost == DefaultPromptCost
              && r.completionCost == DefaultCompletionCost && r.apiUrl == None && r.apiKey == None
              && r.maxTokens == None && r.provider == None
    ensures Matched(args, config).Some? ==>
              var m := Matched(args, config).value;
              r.model == m.model && r.promptCost == m.promptCost && r.completionCost == m.completionCost
              && r.apiUrl == m.apiUrl && r.maxTokens == m.maxTokens && r.provider == m.provider
              && r.apiKey == (if m.apiKey.Some? then Some(ResolveEnvToken(m.apiKey.value, env)) else None)
  {
    var selected := SelectedModelCode(args, config);
    var found := Matched(args, config);
    ModelConfig(
      selected,
      (match found case Some(m) => Some(m.model) case None => None).GetOr(DefaultModel),
      (match found case Some(m) => Some(m.promptCost) case None => None).GetOr(DefaultPromptCost),
      (match found case Some(m) => Some(m.completionCost) case None => None).GetOr(DefaultCompletionCost),
      match found case Some(m) => m.apiUrl case None => None,
      match found
      case Some(m) => (match m.apiKey case Some(token) => Some(ResolveEnvToken(token, env)) case None => None)
      case None => None,
      match found case Some(m) => m.maxTokens case None => None,
      match found case Some(m) => m.provider case None => None)
  }

  /**
   * When models are configured, a run takes its settings from the first of
   * them whose code is the selected code, and from no other.
   */
  lemma FirstMatchWins(args: Cli, config: Config, env: Env, i: nat)
    requires config.models.Some? && i < |config.models.value|
    requires config.models.value[i].code == SelectedModelCode(args, config)
    requires forall j :: 0 <= j < i ==> config.models.value[j].code != SelectedModelCode(args, config)
    ensures var r := GetModelConfig(args, config, env);
            var m := config.models.value[i];
            r.code == m.code && r.model == m.model && r.promptCost == m.promptCost
            && r.completionCost == m.completionCost && r.apiUrl == m.apiUrl
            && r.maxTokens == m.maxTokens && r.provider == m.provider
  {
    var models := config.models.value;
    var found := FindModel(models, SelectedModelCode(args, config));
    assert found.Some?;
    var k :| 0 <= k < |models| && models[k] == found.value && found.value.code == SelectedModelCode(args, config)
             && forall j :: 0 <= j < k ==> models[j].code != SelectedModelCode(args, config);
    assert k == i;
  }

  /** Without a command-line choice and without configured models, every setting is a default. */
  lemma DefaultModelConfig(instruction: string, env: Env)
    ensures var r := GetModelConfig(Cli([], None, None, instruction), Config(None, None), env);
            r.code == DefaultModel && r.model == DefaultModel
            && r.promptCost == DefaultPromptCost && r.completionCost == DefaultCompletionCost
  {
  }

  /**
   * A chosen model that is configured supplies its settings; its `$TOKEN`
   * key stays as written while `TOKEN` is unset.
   */
  lemma ModelConfigResolution(env: Env)
    requires "TOKEN" !in env
    ensures var kimi := ModelConfig("kimi", "test-model", 1.1, 2.2, None, Some("$TOKEN"), Some(4096), Some("fireworks"));
            var r := GetModelConfig(Cli([], None, Some("kimi"), "instruction"), Config(Some([kimi]), None), env);
            r.model == "test-model" && r.promptCost == 1.1 && r.completionCost == 2.2
            && r.maxTokens == Some(4096) && r.code == "kimi" && r.apiKey == Some("$TOKEN")
            && r.provider == Some("fireworks")
  {
    assert "$TOKEN"[1..] == "TOKEN";
  }

  /** With no command-line choice, the first configured model is used. */
  lemma FallbackToFirstModel(env: Env)
    ensures var other := ModelConfig("other", "other-model", 0.5, 1.0, None, None, None, None);
            var r := GetModelConfig(Cli([], None, None, "instruction"), Config(Some([other]), None), env);
            r.model == "other-model" && r.promptCost == 0.5 && r.completionCost == 1.0
            && r.maxTokens == None && r.provider == None
  {
  }

  /** A chosen model that is not configured keeps its code but gets the default settings. */
  lemma SpecifiedModelNotInConfig(env: Env)
    ensures var r := GetModelConfig(Cli([], None, Some("missing"), "instruction"), Config(Some([]), None), env);
            r.code == "missing" && r.model == DefaultModel && r.promptCost == DefaultPromptCost
            && r.completionCost == DefaultCompletionCost && r.provider == None
  {
  }

  /** A set variable replaces its `$` token; an unset one and a plain token are kept. */
  lemma ResolveEnvTokenCases()
    ensures ResolveEnvToken("$TEST_TOKEN", map["TEST_TOKEN" := "actual_value"]) == "actual_value"
    ensures ResolveEnvToken("$MISSING_VAR", map[]) == "$MISSING_VAR"
    ensures forall env: Env :: ResolveEnvToken("plain_val", env) == "plain_val"
  {
    assert "$TEST_TOKEN"[1..] == "TEST_TOKEN";
  }
}
