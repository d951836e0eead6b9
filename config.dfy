/**
 * Provider configuration (agent/config.py): pure decisions over the process environment, which
 * is passed in as a map from variable name to value. `os.environ.get(k)` is `Get(env, k)`;
 * Python's truthiness of that value (present and non-empty) is `IsSet(env, k)`.
 * Logging is not modelled; the one warning that matters (an unsupported Bedrock region) is
 * exposed as the predicate `RegionUnsupported`.
 */
module Config {
  import opened Wrappers

  type Env = map<string, string>

  function Get(env: Env, key: string): Option<string> {
    if key in env then Some(env[key]) else None
  }

  /** `os.environ.get(key, default)`: an empty value is kept, only a missing one falls back. */
  function GetOr(env: Env, key: string, default: string): string {
    if key in env then env[key] else default
  }

  /** `bool(os.environ.get(key))`. */
  predicate IsSet(env: Env, key: string) {
    key in env && env[key] != ""
  }

  datatype Provider = Anthropic | Bedrock | Vertex {
    function Value(): string {
      match this
      case Anthropic => "anthropic"
      case Bedrock => "bedrock"
      case Vertex => "vertex"
    }
  }

  /** Bedrock if its switch is exactly "1", else Vertex if its switch is exactly "1", else Anthropic. */
  function GetProvider(env: Env): (p: Provider)
    ensures p == Bedrock <==> Get(env, "CLAUDE_CODE_USE_BEDROCK") == Some("1")
    ensures p == Vertex <==>
      Get(env, "CLAUDE_CODE_USE_BEDROCK") != Some("1") && Get(env, "CLAUDE_CODE_USE_VERTEX") == Some("1")
  {
    if Get(env, "CLAUDE_CODE_USE_BEDROCK") == Some("1") then Bedrock
    else if Get(env, "CLAUDE_CODE_USE_VERTEX") == Some("1") then Vertex
    else Anthropic
  }

  datatype BedrockConfig = BedrockConfig(
    region: string,
    modelId: Option<string>,
    endpointUrl: Option<string>,
    profileName: Option<string>)

  const DefaultBedrockModelId: string := "us.anthropic.claude-opus-4-20250514-v1:0"
  const DefaultBedrockRegion: string := "us-east-1"
  const SupportedBedrockRegions: seq<string> :=
    ["us-east-1", "us-west-2", "eu-west-1", "eu-central-1", "ap-northeast-1", "ap-southeast-2"]

  /** `get_bedrock_config`: never fails; the region is AWS_REGION, else AWS_DEFAULT_REGION, else us-east-1. */
  function GetBedrockConfig(env: Env): (c: BedrockConfig)
    ensures "AWS_REGION" in env ==> c.region == env["AWS_REGION"]
    ensures "AWS_REGION" !in env && "AWS_DEFAULT_REGION" in env ==> c.region == env["AWS_DEFAULT_REGION"]
    ensures "AWS_REGION" !in env && "AWS_DEFAULT_REGION" !in env ==> c.region == DefaultBedrockRegion
    ensures c.modelId == Get(env, "BEDROCK_MODEL_ID")
    ensures c.endpointUrl == Get(env, "BEDROCK_ENDPOINT_URL")
    ensures c.profileName == Get(env, "AWS_PROFILE")
  {
    BedrockConfig(
      GetOr(env, "AWS_REGION", GetOr(env, "AWS_DEFAULT_REGION", DefaultBedrockRegion)),
      Get(env, "BEDROCK_MODEL_ID"),
      Get(env, "BEDROCK_ENDPOINT_URL"),
      Get(env, "AWS_PROFILE"))
  }

  /** The condition under which `get_bedrock_config` logs its warning (and still succeeds). */
  predicate RegionUnsupported(env: Env) {
    GetBedrockConfig(env).region !in SupportedBedrockRegions
  }

  /** With no region variables at all, the default region is a supported one: no warning. */
  lemma DefaultRegionSupported(env: Env)
    requires "AWS_REGION" !in env && "AWS_DEFAULT_REGION" !in env
    ensures !RegionUnsupported(env)
  {
    assert SupportedBedrockRegions[0] == DefaultBedrockRegion;
  }

  datatype VertexConfig = VertexConfig(projectId: string, region: string)

  /** A `ValueError` and its message. */
  datatype ConfigError = ConfigError(message: string)

  const VertexProjectRequired: string := "GOOGLE_CLOUD_PROJECT environment variable is required for Vertex AI"
  const AnthropicKeyRequired: string :=
    "ANTHROPIC_API_KEY environment variable is required for direct Anthropic API. "
    + "Set CLAUDE_CODE_USE_BEDROCK=1 for Bedrock or CLAUDE_CODE_USE_VERTEX=1 for Vertex AI."

  /** `get_vertex_config`: raises when the project is missing or empty; the region defaults to us-central1. */
  function GetVertexConfig(env: Env): (r: Result<VertexConfig, ConfigError>)
    ensures r.Failure? <==> !IsSet(env, "GOOGLE_CLOUD_PROJECT")
    ensures r.Failure? ==> r.error.message == VertexProjectRequired
    ensures r.Success? ==> r.value.projectId == env["GOOGLE_CLOUD_PROJECT"]
    ensures r.Success? ==> r.value.region == GetOr(env, "GOOGLE_CLOUD_REGION", "us-central1")
  {
    if !IsSet(env, "GOOGLE_CLOUD_PROJECT") then Failure(ConfigError(VertexProjectRequired))
    else Success(VertexConfig(env["GOOGLE_CLOUD_PROJECT"], GetOr(env, "GOOGLE_CLOUD_REGION", "us-central1")))
  }

  /** Which branch of `validate_bedrock_credentials` was taken (it only logs which one). */
  datatype CredentialBasis = ExplicitKeys | Profile | AwsRuntime | DefaultChain

  datatype CredentialCheck = CredentialCheck(valid: bool, basis: CredentialBasis)

  /** `validate_bedrock_credentials`: reports what it found, and answers "valid" on every path. */
  function ValidateBedrockCredentials(env: Env): (r: CredentialCheck)
    ensures r.valid
    ensures r.basis == ExplicitKeys <==> IsSet(env, "AWS_ACCESS_KEY_ID") && IsSet(env, "AWS_SECRET_ACCESS_KEY")
    ensures r.basis == Profile <==>
      !(IsSet(env, "AWS_ACCESS_KEY_ID") && IsSet(env, "AWS_SECRET_ACCESS_KEY")) && IsSet(env, "AWS_PROFILE")
    ensures r.basis == DefaultChain <==>
      !(IsSet(env, "AWS_ACCESS_KEY_ID") && IsSet(env, "AWS_SECRET_ACCESS_KEY")) && !IsSet(env, "AWS_PROFILE")
      && !IsSet(env, "AWS_EXECUTION_ENV") && !IsSet(env, "AWS_LAMBDA_FUNCTION_NAME")
  {
    if IsSet(env, "AWS_ACCESS_KEY_ID") && IsSet(env, "AWS_SECRET_ACCESS_KEY") then CredentialCheck(true, ExplicitKeys)
    else if IsSet(env, "AWS_PROFILE") then CredentialCheck(true, Profile)
    else if IsSet(env, "AWS_EXECUTION_ENV") || IsSet(env, "AWS_LAMBDA_FUNCTION_NAME") then CredentialCheck(true, AwsRuntime)
    else CredentialCheck(true, DefaultChain)
  }

  /** `_get_aws_credentials_source`: access key > profile > Lambda > execution environment > default chain. */
  function CredentialsSource(env: Env): (s: string)
    ensures IsSet(env, "AWS_ACCESS_KEY_ID") ==> s == "environment_variables"
    ensures !IsSet(env, "AWS_ACCESS_KEY_ID") && IsSet(env, "AWS_PROFILE") ==> s == "profile:" + env["AWS_PROFILE"]
    ensures !IsSet(env, "AWS_ACCESS_KEY_ID") && !IsSet(env, "AWS_PROFILE") && IsSet(env, "AWS_LAMBDA_FUNCTION_NAME") ==>
      s == "lambda_execution_role"
    ensures (!IsSet(env, "AWS_ACCESS_KEY_ID") && !IsSet(env, "AWS_PROFILE") && !IsSet(env, "AWS_LAMBDA_FUNCTION_NAME")
             && IsSet(env, "AWS_EXECUTION_ENV")) ==> s == "iam_role"
    ensures (!IsSet(env, "AWS_ACCESS_KEY_ID") && !IsSet(env, "AWS_PROFILE")
             && !IsSet(env, "AWS_LAMBDA_FUNCTION_NAME") && !IsSet(env, "AWS_EXECUTION_ENV")) ==> s == "default_credential_chain"
  {
    if IsSet(env, "AWS_ACCESS_KEY_ID") then "environment_variables"
    else if IsSet(env, "AWS_PROFILE") then "profile:" + env["AWS_PROFILE"]
    else if IsSet(env, "AWS_LAMBDA_FUNCTION_NAME") then "lambda_execution_role"
    else if IsSet(env, "AWS_EXECUTION_ENV") then "iam_role"
    else "default_credential_chain"
  }

  /**
   * The validation and the health report name the same kind of credentials whenever an access
   * key never comes without its secret; they part ways only for an access key alone, which the
   * report calls "environment_variables" while the validation looks further down its list.
   */
  lemma CredentialViewsAgree(env: Env)
    requires IsSet(env, "AWS_ACCESS_KEY_ID") ==> IsSet(env, "AWS_SECRET_ACCESS_KEY")
    ensures ValidateBedrockCredentials(env).basis == ExplicitKeys <==> CredentialsSource(env) == "environment_variables"
    ensures ValidateBedrockCredentials(env).basis == Profile <==>
      "AWS_PROFILE" in env && CredentialsSource(env) == "profile:" + env["AWS_PROFILE"]
    ensures ValidateBedrockCredentials(env).basis == AwsRuntime <==>
      CredentialsSource(env) in {"lambda_execution_role", "iam_role"}
    ensures ValidateBedrockCredentials(env).basis == DefaultChain <==> CredentialsSource(env) == "default_credential_chain"
  {
    if IsSet(env, "AWS_PROFILE") && !IsSet(env, "AWS_ACCESS_KEY_ID") {
      assert CredentialsSource(env)[0] == 'p';
    } else {
      assert "AWS_PROFILE" in env ==> ("profile:" + env["AWS_PROFILE"])[0] == 'p';
    }
  }

  /**
   * An access key without a secret: the report says "environment_variables", while the validation
   * does not count it as explicit keys and goes on to the profile when one is set.
   */
  lemma AccessKeyAloneDiverges(env: Env)
    requires IsSet(env, "AWS_ACCESS_KEY_ID") && !IsSet(env, "AWS_SECRET_ACCESS_KEY")
    ensures CredentialsSource(env) == "environment_variables"
    ensures ValidateBedrockCredentials(env).basis != ExplicitKeys
    ensures IsSet(env, "AWS_PROFILE") ==> ValidateBedrockCredentials(env).basis == Profile
  {
  }

  datatype AgentConfig = AgentConfig(
    provider: Provider,
    bedrock: Option<BedrockConfig>,
    vertex: Option<VertexConfig>,
    anthropicApiKey: Option<string>)

  /**
   * `load_config`: fills in exactly the sub-configuration of the selected provider, and raises
   * for Vertex without a project and for the direct API without a key.
   */
  function LoadConfig(env: Env): (r: Result<AgentConfig, ConfigError>)
    ensures r.Success? ==> r.value.provider == GetProvider(env)
    ensures r.Success? ==> (r.value.bedrock.Some? <==> r.value.provider == Bedrock)
    ensures r.Success? ==> (r.value.vertex.Some? <==> r.value.provider == Vertex)
    ensures r.Success? ==> (r.value.anthropicApiKey.Some? <==> r.value.provider == Anthropic)
    ensures r.Success? && r.value.bedrock.Some? ==> r.value.bedrock.value == GetBedrockConfig(env)
    ensures r.Success? && r.value.vertex.Some? ==> GetVertexConfig(env) == Success(r.value.vertex.value)
    ensures r.Success? && r.value.anthropicApiKey.Some? ==>
      r.value.anthropicApiKey == Get(env, "ANTHROPIC_API_KEY") && r.value.anthropicApiKey.value != ""
    ensures r.Failure? <==>
      (GetProvider(env) == Vertex && !IsSet(env, "GOOGLE_CLOUD_PROJECT")) ||
      (GetProvider(env) == Anthropic && !IsSet(env, "ANTHROPIC_API_KEY"))
    ensures GetProvider(env) == Anthropic && r.Failure? ==> r.error.message == AnthropicKeyRequired
    ensures GetProvider(env) == Vertex && r.Failure? ==> r.error.message == VertexProjectRequired
  {
    var provider := GetProvider(env);
    match provider
    case Bedrock =>
      var _ := ValidateBedrockCredentials(env);
      Success(AgentConfig(provider, Some(GetBedrockConfig(env)), None, None))
    case Vertex =>
      (match GetVertexConfig(env)
       case Success(v) => Success(AgentConfig(provider, None, Some(v), None))
       case Failure(e) => Failure(e))
    case Anthropic =>
      if !IsSet(env, "ANTHROPIC_API_KEY") then Failure(ConfigError(AnthropicKeyRequired))
      else Success(AgentConfig(provider, None, None, Some(env["ANTHROPIC_API_KEY"])))
  }

  /** `model_id or DEFAULT_MODEL_ID`: a missing or empty model id gives the default. */
  function ModelIdOrDefault(modelId: Option<string>): (m: string)
    ensures m != ""
    ensures modelId.Some? && modelId.value != "" ==> m == modelId.value
    ensures modelId.None? || modelId.value == "" ==> m == DefaultBedrockModelId
  {
    if modelId.Some? && modelId.value != "" then modelId.value else DefaultBedrockModelId
  }

  /** A value in the health report's provider dict. */
  datatype InfoValue = Text(text: string) | Flag(flag: bool)

  /**
   * `get_provider_info`: never raises; a Vertex configuration error is reported under "error".
   */
  function GetProviderInfo(env: Env): (info: map<string, InfoValue>)
    ensures "provider" in info && info["provider"] == Text(GetProvider(env).Value())
    ensures GetProvider(env) == Bedrock ==>
      info.Keys == {"provider", "aws_region", "model_id", "credentials_source"}
      && info["aws_region"] == Text(GetBedrockConfig(env).region)
      && info["model_id"] == Text(ModelIdOrDefault(GetBedrockConfig(env).modelId))
      && info["credentials_source"] == Text(CredentialsSource(env))
    ensures GetProvider(env) == Vertex && IsSet(env, "GOOGLE_CLOUD_PROJECT") ==>
      info.Keys == {"provider", "project_id", "region"}
      && info["project_id"] == Text(env["GOOGLE_CLOUD_PROJECT"])
      && info["region"] == Text(GetOr(env, "GOOGLE_CLOUD_REGION", "us-central1"))
    ensures GetProvider(env) == Vertex && !IsSet(env, "GOOGLE_CLOUD_PROJECT") ==>
      info.Keys == {"provider", "error"} && info["error"] == Text(VertexProjectRequired)
    ensures GetProvider(env) == Anthropic ==>
      info.Keys == {"provider", "api_key_configured"} && info["api_key_configured"] == Flag(IsSet(env, "ANTHROPIC_API_KEY"))
  {
    var provider := GetProvider(env);
    var info := map["provider" := Text(provider.Value())];
    match provider
    case Bedrock =>
      var c := GetBedrockConfig(env);
      info["aws_region" := Text(c.region)]
          ["model_id" := Text(ModelIdOrDefault(c.modelId))]
          ["credentials_source" := Text(CredentialsSource(env))]
    case Vertex =>
      (match GetVertexConfig(env)
       case Success(v) => info["project_id" := Text(v.projectId)]["region" := Text(v.region)]
       case Failure(e) => info["error" := Text(e.message)])
    case Anthropic =>
      info["api_key_configured" := Flag(IsSet(env, "ANTHROPIC_API_KEY"))]
  }

  /** An empty BEDROCK_MODEL_ID is falsy, so the report shows the default model rather than "". */
  lemma EmptyModelIdDefaults(env: Env)
    requires GetProvider(env) == Bedrock && Get(env, "BEDROCK_MODEL_ID") == Some("")
    ensures GetProviderInfo(env)["model_id"] == Text(DefaultBedrockModelId)
  {
  }
}
