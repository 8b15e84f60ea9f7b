# Configuration loader of presigned-url-go, in Dafny

This project models `pkg/config/config.go` of a serverless backend that issues
pre-signed S3 upload/download URLs. That file does three things:

- `GetEnvOrDefault` reads one environment variable and falls back to a default when the value is empty.
- `NewConfig` builds the application's `Config` record from six environment variables.
  It parses `DEFAULT_MAX_FILE_SIZE` as a base-10 int64 and falls back silently to 10485760 (10 MiB) on any parse error.
- `NewS3Client` picks the options passed to the AWS SDK's `LoadDefaultConfig`.
  It always passes the region. It also passes static credentials with an empty session token when both the key id and the secret are set.
  It then either wraps the load error or builds an S3 client and a presign client bound to it.

The code is pure, so the model is made of functions and lemmas:

- `wrappers.dfy` holds `Result`, which stands for Go's `(value, error)` returns.
- `strconv.dfy` models Go's `strconv.ParseInt(s, 10, 64)`, which `NewConfig` calls.
  `ParseUint` and `ParseInt` follow the library's steps: sign stripping, then the digit loop with its `cutoff` and `maxVal` overflow checks, then the signed range check.
  They are proved against an independent definition: an optional sign, one or more ASCII digits, and the positional value of those digits.
  A decimal rendering (`FormatInt`) supplies a literal for every int64.
- `config.dfy` models `Config`, `GetEnvOrDefault`, `NewConfig` and `NewS3Client`.
  The process environment is a `map<string, string>`, and an absent key reads as `""`, as with `os.Getenv`.
  `LoadDefaultConfig` is a function parameter that may fail. The S3 and presign clients are opaque wrappers around the configuration it returns.

## Model

| member | source | states |
|---|---|---|
| `Config.GetEnvOrDefault` | pkg/config/config.go:25-31 | an empty or unset variable gives the default; any other value is returned unchanged; the result is empty only when both the value and the default are |
| `Config.NewConfig` | pkg/config/config.go:34-49 | never fails; region defaults to `ap-northeast-2` and environment to `dev`; key id, secret and bucket are the variables' values (`""` when unset); the size limit is the value of `DEFAULT_MAX_FILE_SIZE` when that is a decimal int64 literal and 10485760 otherwise; region and environment are never empty |
| `Config.MaxFileSizeParsed` | pkg/config/config.go:35-39 | parsing the variable with ParseInt and falling back on error gives exactly the literal's value or 10485760, including when the variable is unset |
| `Config.DefaultSizeLiteral` | pkg/config/config.go:35-38 | the default string `"10485760"` parses to the same value as the fallback constant |
| `Config.MaxFileSizeFallback` | pkg/config/config.go:36-39 | whenever `DEFAULT_MAX_FILE_SIZE` is not a decimal literal, or is outside the int64 range, the size limit is 10485760 |
| `Config.EveryInt64Configurable` | pkg/config/config.go:36-46 | every int64, including zero and negative values, can be set as the size limit: there is no positivity or upper-bound check |
| `Config.MaxFileSizeExamples` | pkg/config/config.go:35-39 | `""` and `"abc"` give 10485760; so do `" 1024"`, `"1.5"`, `"1_000"`, `"--1"` and `"-"`; `"0"`, `"-1"` and `"+42"` give 0, -1 and 42 |
| `Config.MaxFileSizeBoundaries` | pkg/config/config.go:36-39 | 2^63-1 and -2^63 are kept; 2^63 and -2^63-1 overflow and fall back to 10485760 |
| `Config.NewConfigReadsOnlyConfigVars` | pkg/config/config.go:34-49 | environments that agree on the six variables give equal configs (deterministic, no other input) |
| `Config.UnsetActsLikeEmpty` | pkg/config/config.go:25-31 | removing a variable and setting it to `""` give the same config |
| `Config.LoadOptions` | pkg/config/config.go:54-65 | the first option is the region option with the configured region; there is a second option if and only if both key id and secret are non-empty, and it is a static credentials provider with exactly those two values and an empty session token |
| `Config.NewS3Client` | pkg/config/config.go:52-77 | fails if and only if LoadDefaultConfig fails on the chosen options, returning no clients and the load error wrapped with its message; otherwise the S3 client is built from the loaded configuration and the presign client is bound to that S3 client |
| `Config.LoadOptionsFromEnv` | pkg/config/config.go:42-65 | starting from the environment, explicit credentials are passed, exactly as set, if and only if both `AWS_ACCESS_KEY_ID` and `AWS_SECRET_ACCESS_KEY` are non-empty; otherwise only the region (or its default) is passed |
| `Strconv.ParseUint` | pkg/config/config.go:36 | an accepted unsigned value never exceeds 2^64-1 |
| `Strconv.ParseInt` | pkg/config/config.go:36 | every error names ParseInt and the whole input string |
| `Strconv.ParseIntCharacterization` | pkg/config/config.go:36-39 | ParseInt succeeds if and only if the string is an optional sign followed by one or more ASCII digits whose value lies in the int64 range; it then returns that value; a literal outside the range is a range error |
| `Strconv.ScanDecimalValue` | pkg/config/config.go:36 | on a digit string, the digit loop returns the positional value when it fits in uint64 and a range error otherwise |
| `Strconv.ScanDecimalRejectsNonDigit` | pkg/config/config.go:36 | the digit loop never accepts a string containing a non-digit |
| `Strconv.ScanDecimalBounded` | pkg/config/config.go:36 | the digit loop's accepted values stay within uint64 |
| `Strconv.ParseIntSyntaxExamples` | pkg/config/config.go:36-37 | `""`, `"+"`, `"abc"` and `"12a"` are syntax errors; `"-0"` is zero |
| `Strconv.ParseFormatRoundTrip` | pkg/config/config.go:36 | the decimal rendering of every int64 parses back to that value |

## Left out

- The HTTP handlers in pkg/handlers are not modelled. They forward every branch to code outside this model: JSON decoding, field validation, the S3 and admin services, and response building.
- The request validator and the URL signing service are not part of this model. Their source is not available.
- `context.Context`, logging and real environment access are left out. The environment is a parameter.
- `config.LoadDefaultConfig`, `s3.NewFromConfig`, `s3.NewPresignClient` and `credentials.NewStaticCredentialsProvider` are AWS SDK code. They appear only as a function parameter that may fail and as opaque values.
- Strconv.ParseInt: does not model the value Go returns beside an error: 0 for a syntax error, or the clamped int64 bound for a range error. `NewConfig` overwrites that value with the fallback.
- Strconv.ParseInt: for a string that has both a non-digit and an overflowing digit prefix, the model reports the error kind in the library's order, but only the fact of an error is proved about such inputs.
- Strconv.ParseUint: reads characters, where Go reads bytes. A non-ASCII character is a syntax error either way, so the outcome is the same.
- Config.NewS3Client: the error is the message paired with its cause. The model does not build the `"message: cause"` string that `fmt.Errorf` with `%w` produces.
- Config.NewConfig: returns a value rather than a `*Config` pointer. Nothing mutates the record after it is built.
