/**
 * The application configuration of pkg/config/config.go: the `Config`
 * record, its loading from environment variables (`GetEnvOrDefault`,
 * `NewConfig`) and the choice of options with which `NewS3Client` asks the
 * AWS SDK for a configuration and builds the S3 and presign clients.
 *
 * The process environment is an explicit map. Like `os.Getenv`, the model
 * cannot tell an unset variable from one set to the empty string.
 */
module Config {
  import opened Wrappers
  import opened Strconv

  type Env = map<string, string>

  /** `os.Getenv`: the value of `key`, or "" when it is unset. */
  function Getenv(env: Env, key: string): string {
    if key in env then env[key] else ""
  }

  const AwsRegionVar := "AWS_REGION"
  const AwsAccessKeyIdVar := "AWS_ACCESS_KEY_ID"
  const AwsSecretAccessKeyVar := "AWS_SECRET_ACCESS_KEY"
  const DefaultBucketVar := "DEFAULT_BUCKET"
  const DefaultMaxFileSizeVar := "DEFAULT_MAX_FILE_SIZE"
  const EnvVar := "ENV"

  /** The environment variables NewConfig reads. */
  const ConfigVars: set<string> :=
    {AwsRegionVar, AwsAccessKeyIdVar, AwsSecretAccessKeyVar, DefaultBucketVar, DefaultMaxFileSizeVar, EnvVar}

  const DefaultRegion := "ap-northeast-2"
  const DefaultEnvironment := "dev"
  /** 10 MiB, used when DEFAULT_MAX_FILE_SIZE is unset, empty or not an int64. */
  const FallbackMaxFileSize: Int64 := 10485760

  datatype Config = Config(
    awsRegion: string,
    awsAccessKeyID: string,
    awsSecretAccessKey: string,
    defaultBucket: string,
    defaultMaxFileSize: Int64,
    environment: string)

  /**
   * The value of `key`, or `defaultValue` when that value is empty or unset.
   * The result is empty only when both are.
   */
  function GetEnvOrDefault(env: Env, key: string, defaultValue: string): (r: string)
    ensures Getenv(env, key) == "" ==> r == defaultValue
    ensures Getenv(env, key) != "" ==> r == Getenv(env, key)
    ensures r == "" <==> Getenv(env, key) == "" && defaultValue == ""
  {
    var value := Getenv(env, key);
    if value == "" then defaultValue else value
  }

  /**
   * The size limit DEFAULT_MAX_FILE_SIZE denotes: its value when it is a
   * decimal int64 literal, FallbackMaxFileSize otherwise.
   */
  function MaxFileSizeSetting(value: string): Int64 {
    if IsDecimalLiteral(value) && InInt64(LiteralValue(value)) then LiteralValue(value)
    else FallbackMaxFileSize
  }

  /**
   * `NewConfig`: every field comes from its variable or its default; the size
   * limit is parsed with ParseInt and silently falls back on any parse error.
   * It never fails.
   */
  function NewConfig(env: Env): (c: Config)
    ensures c.awsRegion == if Getenv(env, AwsRegionVar) == "" then DefaultRegion else Getenv(env, AwsRegionVar)
    ensures c.awsAccessKeyID == Getenv(env, AwsAccessKeyIdVar)
    ensures c.awsSecretAccessKey == Getenv(env, AwsSecretAccessKeyVar)
    ensures c.defaultBucket == Getenv(env, DefaultBucketVar)
    ensures c.defaultMaxFileSize == MaxFileSizeSetting(Getenv(env, DefaultMaxFileSizeVar))
    ensures c.environment == if Getenv(env, EnvVar) == "" then DefaultEnvironment else Getenv(env, EnvVar)
    ensures c.awsRegion != "" && c.environment != ""
  {
    var sizeStr := GetEnvOrDefault(env, DefaultMaxFileSizeVar, "10485760");
    var size: Int64 := match ParseInt(sizeStr)
      case Success(n) => n
      case Failure(_) => FallbackMaxFileSize;
    MaxFileSizeParsed(env);
    Config(
      GetEnvOrDefault(env, AwsRegionVar, DefaultRegion),
      GetEnvOrDefault(env, AwsAccessKeyIdVar, ""),
      GetEnvOrDefault(env, AwsSecretAccessKeyVar, ""),
      GetEnvOrDefault(env, DefaultBucketVar, ""),
      size,
      GetEnvOrDefault(env, EnvVar, DefaultEnvironment))
  }

  /** The parse-and-fall-back step of NewConfig agrees with MaxFileSizeSetting, the empty string included. */
  lemma MaxFileSizeParsed(env: Env)
    ensures var sizeStr := GetEnvOrDefault(env, DefaultMaxFileSizeVar, "10485760");
            (match ParseInt(sizeStr) case Success(n) => n case Failure(_) => FallbackMaxFileSize)
              == MaxFileSizeSetting(Getenv(env, DefaultMaxFileSizeVar))
  {
    var value := Getenv(env, DefaultMaxFileSizeVar);
    var sizeStr := GetEnvOrDefault(env, DefaultMaxFileSizeVar, "10485760");
    ParseIntCharacterization(sizeStr);
    if value == "" {
      DefaultSizeLiteral();
      assert !IsDecimalLiteral(value);
    }
  }

  /** The default string "10485760" parses to the fallback value, so both defaults agree. */
  lemma DefaultSizeLiteral()
    ensures ParseInt("10485760") == Success(FallbackMaxFileSize)
  {
    assert FormatInt(10485760) == "10485760";
    ParseFormatRoundTrip(10485760);
  }

  /** The size limit is FallbackMaxFileSize whenever the variable is not a decimal int64 literal. */
  lemma MaxFileSizeFallback(env: Env)
    requires var value := Getenv(env, DefaultMaxFileSizeVar);
             !IsDecimalLiteral(value) || !InInt64(LiteralValue(value))
    ensures NewConfig(env).defaultMaxFileSize == FallbackMaxFileSize
  {
  }

  /**
   * Every int64, zero and negative values included, can be configured as the
   * size limit: there is no positivity or upper-bound check.
   */
  lemma EveryInt64Configurable(v: Int64)
    ensures NewConfig(map[DefaultMaxFileSizeVar := FormatInt(v)]).defaultMaxFileSize == v
  {
    var env := map[DefaultMaxFileSizeVar := FormatInt(v)];
    assert Getenv(env, DefaultMaxFileSizeVar) == FormatInt(v);
    FormatLiteralValue(v);
  }

  /** Concrete values of DEFAULT_MAX_FILE_SIZE and the limit they give. */
  lemma MaxFileSizeExamples()
    ensures MaxFileSizeSetting("") == 10485760
    ensures MaxFileSizeSetting("0") == 0
    ensures MaxFileSizeSetting("-1") == -1
    ensures MaxFileSizeSetting("+42") == 42
    ensures MaxFileSizeSetting("abc") == 10485760
    ensures MaxFileSizeSetting(" 1024") == 10485760
    ensures MaxFileSizeSetting("1.5") == 10485760
    ensures MaxFileSizeSetting("1_000") == 10485760
    ensures MaxFileSizeSetting("--1") == 10485760
    ensures MaxFileSizeSetting("-") == 10485760
  {
  }

  /** The int64 boundaries are accepted; one past either is out of range and falls back. */
  lemma MaxFileSizeBoundaries()
    ensures MaxFileSizeSetting(FormatInt(MaxInt64)) == MaxInt64
    ensures MaxFileSizeSetting(FormatInt(MinInt64)) == MinInt64
    ensures MaxFileSizeSetting(FormatInt(MaxInt64 + 1)) == FallbackMaxFileSize
    ensures MaxFileSizeSetting(FormatInt(MinInt64 - 1)) == FallbackMaxFileSize
  {
    FormatLiteralValue(MaxInt64);
    FormatLiteralValue(MinInt64);
    FormatLiteralValue(MaxInt64 + 1);
    FormatLiteralValue(MinInt64 - 1);
  }

  /** NewConfig reads only its six variables and nothing else. */
  lemma NewConfigReadsOnlyConfigVars(env1: Env, env2: Env)
    requires forall k :: k in ConfigVars ==> Getenv(env1, k) == Getenv(env2, k)
    ensures NewConfig(env1) == NewConfig(env2)
  {
  }

  /** An unset variable acts like one set to the empty string. */
  lemma UnsetActsLikeEmpty(env: Env, key: string)
    ensures NewConfig(env - {key}) == NewConfig(env[key := ""])
  {
  }

  // ---------------------------------------------------------------------------
  // NewS3Client
  // ---------------------------------------------------------------------------

  /** `credentials.NewStaticCredentialsProvider(key, secret, session)`. */
  datatype StaticCredentialsProvider =
    StaticCredentialsProvider(accessKeyID: string, secretAccessKey: string, sessionToken: string)

  /** The two `config.LoadOptions` setters NewS3Client can pass. */
  datatype LoadOption =
    | WithRegion(region: string)
    | WithCredentialsProvider(provider: StaticCredentialsProvider)

  /** `s3.NewFromConfig(awsCfg)`: a client over the loaded SDK configuration. */
  datatype S3Client<C> = S3Client(awsConfig: C)

  /** `s3.NewPresignClient(client)`: a presign client bound to an S3 client. */
  datatype PresignClient<C> = PresignClient(client: S3Client<C>)

  datatype Clients<C> = Clients(s3: S3Client<C>, presign: PresignClient<C>)

  /** `fmt.Errorf("AWS 설정 로드 실패: %w", err)`: the load error, wrapped. */
  datatype LoadConfigError<E> = LoadConfigError(message: string, cause: E)

  const LoadFailedMessage := "AWS 설정 로드 실패"

  /** Whether both halves of an explicit key pair are configured. */
  predicate HasStaticCredentials(cfg: Config) {
    cfg.awsAccessKeyID != "" && cfg.awsSecretAccessKey != ""
  }

  /**
   * The options passed to LoadDefaultConfig: the configured region first,
   * then static credentials with an empty session token exactly when both the
   * key id and the secret are set.
   */
  function LoadOptions(cfg: Config): (opts: seq<LoadOption>)
    ensures 1 <= |opts| <= 2
    ensures opts[0] == WithRegion(cfg.awsRegion)
    ensures |opts| == 2 <==> HasStaticCredentials(cfg)
    ensures |opts| == 2 ==>
              opts[1] == WithCredentialsProvider(
                StaticCredentialsProvider(cfg.awsAccessKeyID, cfg.awsSecretAccessKey, ""))
  {
    var options := [WithRegion(cfg.awsRegion)];
    if cfg.awsAccessKeyID != "" && cfg.awsSecretAccessKey != "" then
      options + [WithCredentialsProvider(
        StaticCredentialsProvider(cfg.awsAccessKeyID, cfg.awsSecretAccessKey, ""))]
    else options
  }

  /**
   * `NewS3Client`, with the SDK's `config.LoadDefaultConfig` given as
   * `loadDefaultConfig`. A load failure gives no clients and the wrapped
   * error; otherwise the S3 client is built from the loaded configuration and
   * the presign client from that S3 client.
   */
  function NewS3Client<C, E>(cfg: Config, loadDefaultConfig: seq<LoadOption> -> Result<C, E>)
    : (r: Result<Clients<C>, LoadConfigError<E>>)
    ensures var loaded := loadDefaultConfig(LoadOptions(cfg));
            && (r.Failure? <==> loaded.Failure?)
            && (r.Failure? ==> r.error == LoadConfigError(LoadFailedMessage, loaded.error))
            && (r.Success? ==> r.value.s3 == S3Client(loaded.value) && r.value.presign.client == r.value.s3)
  {
    match loadDefaultConfig(LoadOptions(cfg))
    case Failure(err) => Failure(LoadConfigError(LoadFailedMessage, err))
    case Success(awsCfg) =>
      var s3Client := S3Client(awsCfg);
      Success(Clients(s3Client, PresignClient(s3Client)))
  }

  /**
   * From the environment to the load options: explicit credentials are used,
   * exactly as given, if and only if both AWS_ACCESS_KEY_ID and
   * AWS_SECRET_ACCESS_KEY are non-empty; otherwise the SDK's own credential
   * discovery applies.
   */
  lemma LoadOptionsFromEnv(env: Env)
    ensures var id := Getenv(env, AwsAccessKeyIdVar);
            var secret := Getenv(env, AwsSecretAccessKeyVar);
            var region := GetEnvOrDefault(env, AwsRegionVar, DefaultRegion);
            LoadOptions(NewConfig(env)) ==
              if id != "" && secret != "" then
                [WithRegion(region), WithCredentialsProvider(StaticCredentialsProvider(id, secret, ""))]
              else [WithRegion(region)]
  {
  }
}
