# Configuration service of golang-rest-api-template, in Dafny

This project models the `config` package of the Go REST API template. Its
`Service` holds a name and four typed configuration groups: database, Redis,
server and Jaeger. `LoadConfig` fills the groups from environment variables.
Each of the thirteen recognised keys is resolved on its own by `getEnv`:

- a key that is set wins, even when its value is empty;
- a key that is absent takes its hard-coded default.

`REDIS_DB` is the only integer field. It goes through `strconv.Atoi`, and the
parse error is thrown away.

Files:

- `wrappers.dfy`: `Option`, whose `None` stands for Go's nil error.
- `strconv.dfy`: module `Strconv`, Go's `strconv.Atoi` for a 64-bit `int`.
  It takes an optional sign, then runs `ParseUint`'s digit loop with its uint64
  overflow check, then clamps into the int range. It also has the decimal
  rendering `Itoa` that `Atoi` inverts.
- `config.dfy`: module `Config`, with:
  - the four record types and the key table (`Key`, `Name`, `Default`);
  - `GetEnv`;
  - the function `Resolve`, which states what one load produces;
  - an independent reference, `FromTable`, that reads the same groups off the key table;
  - the class `Service`.

`Service` keeps a ghost record of the environment of its last load,
`loadedFrom`. Its invariant `Valid()` says that the four groups hold:

- Go's zero values before the first load;
- `Resolve(env)` after a load from `env`.

The environment, that is the process environment after the optional `.env`
file has been read into it, is an explicit `map<string, string>` parameter.

## Model

| member | source | states |
|---|---|---|
| Config.GetEnv | config/config.go:98-103 | the result is the environment's value whenever the key is present, and the default exactly when it is absent |
| Config.GetEnvKeepsEmptyValue | config/config.go:98-103 | a key set to the empty string resolves to the empty string, not to its default |
| Config.GetEnvDefaultIff | config/config.go:98-103 | the default is returned if and only if the key is absent or set to the default itself |
| Config.ResolvedStringField | config/config.go:65-92 | after a load, every text field equals the environment value of its key when set, and the key's default otherwise |
| Config.DBGroup | config/config.go:65-71 | after a load, Host, Port, User, Password and Name of the database group are the values of DB_HOST, DB_PORT, DB_USER, DB_PASSWORD and DB_NAME when set, and "localhost", "3306", "user", "password" and "mydatabase" otherwise |
| Config.RedisGroup | config/config.go:74-80 | after a load, Host, Port and Password of the Redis group are the values of REDIS_HOST, REDIS_PORT and REDIS_PASSWORD when set, and "localhost", "6379" and "" otherwise; DB is Atoi's value of REDIS_DB, or of "0" when it is unset |
| Config.ServerGroup | config/config.go:83-86 | after a load, Address and Port of the server group are the values of SERVER_ADDR and SERVER_PORT when set, and "" and "8080" otherwise |
| Config.JaegerGroup | config/config.go:89-92 | after a load, AgentHost and AgentPort of the Jaeger group are the values of JAEGER_AGENT_HOST and JAEGER_AGENT_PORT when set, and "localhost" and "6831" otherwise |
| Config.ResolveMatchesTable | config/config.go:61-95 | the groups a load builds are exactly those given by the key/default table, for every environment |
| Config.UnsetKeys | config/config.go:98-103 | every recognised key that is unset resolves to its default, whatever the other keys hold |
| Config.RedisDBUnset | config/config.go:74 | with REDIS_DB unset, the Redis DB is 0, whatever the other keys hold |
| Config.ResolveUnset | config/config.go:61-95 | with no recognised key set, every field takes its default, and the Redis DB is 0 |
| Config.RedisDBParsesExactly | config/config.go:74 | REDIS_DB set to the decimal text of any 64-bit int gives exactly that int |
| Config.RedisDBDecimal | config/config.go:74 | REDIS_DB set to any well-formed decimal text, with a sign or leading zeros such as "+5", "007" or "-0", gives its value, clamped to MaxInt or MinInt when it does not fit an int |
| Config.RedisDBMalformed | config/config.go:74 | REDIS_DB set to malformed text of any length gives 0 exactly when its leading digits fit in a uint64, and otherwise the int bound of its sign |
| Config.RedisDBMalformedIsZero | config/config.go:74 | REDIS_DB set to malformed text of at most 19 characters, such as "abc" or "", gives 0 |
| Config.RedisDBInRange | config/config.go:74-79 | the Redis DB number is a 64-bit int, whatever REDIS_DB holds |
| Config.ResolveIgnoresUnrecognised | config/config.go:61-95 | setting a variable that is not one of the thirteen keys changes no field |
| Config.ResolveReadsOnlyRecognised | config/config.go:61-95 | two environments that agree on the thirteen keys give the same configuration |
| Config.ScenarioHostSetPortUnsetRedisDBMalformed | config/config.go:65-80 | DB_HOST=dbhost, DB_PORT unset and REDIS_DB=abc give host "dbhost", port "3306" and Redis DB 0 |
| Config.Service.NewService | config/config.go:48-52 | NewService sets the name to "go-rest-api-template", and the groups hold zero values |
| Config.Service.Init | config/config.go:56-58 | Init returns nil, leaves the name alone, and leaves the groups as LoadConfig resolves them from the environment |
| Config.Service.LoadConfig | config/config.go:61-95 | LoadConfig returns nil for every environment, overwrites the four groups with what the environment resolves to, restores the invariant, and leaves the name unchanged |
| Config.Service.GetDBConfig | config/config.go:106-108 | in a valid service, the result is the database group of the last load, or zero values before any load; the service is only read |
| Config.Service.GetRedisConfig | config/config.go:111-113 | in a valid service, the result is the Redis group of the last load, or zero values before any load; the service is only read |
| Config.Service.GetServerConfig | config/config.go:116-118 | in a valid service, the result is the server group of the last load, or zero values before any load; the service is only read |
| Config.Service.GetJaegerConfig | config/config.go:121-123 | in a valid service, the result is the Jaeger group of the last load, or zero values before any load; the service is only read |
| Config.LoadConfigTwice | config/config.go:65-92 | loading twice from the same environment leaves the groups as one load does, and the name unchanged |
| Strconv.Atoi | config/config.go:74 | the result is always a 64-bit int; a syntax error gives 0; a range error gives MinInt for text starting with '-' and MaxInt otherwise |
| Strconv.AtoiDecimal | config/config.go:74 | well-formed decimal text parses to its value when that value fits an int, and otherwise clamps to MaxInt or MinInt with a range error |
| Strconv.AtoiZero | config/config.go:74 | the default text "0" parses to 0 with no error |
| Strconv.AtoiMalformed | config/config.go:74 | malformed text always yields an error, and yields 0 unless the error is a range error |
| Strconv.AtoiMalformedShort | config/config.go:74 | malformed text of at most 19 characters gives 0 with a syntax error |
| Strconv.AtoiOverflowBeforeBadChar | config/config.go:74 | an optional sign, then digits whose value overflows uint64, then a non-digit, give a range error with MinInt after '-' and MaxInt otherwise, rather than 0 |
| Strconv.AtoiOverflowWitness | config/config.go:74 | such malformed text exists for every number above the uint64 range, such as 2^64: its digits followed by 'x' give MaxInt, and with a leading '-' give MinInt |
| Strconv.AtoiMalformedExact | config/config.go:74 | malformed text of any length gives (0, syntax error) exactly when every run of its leading digits fits in a uint64, and otherwise the bound of its sign with a range error |
| Strconv.ScanOverflowsOnPrefix | config/config.go:74 | once an all-digit prefix overflows uint64, the digit loop ends in overflow whatever follows |
| Strconv.NatDigits | config/config.go:74 | the decimal digits of a natural number are non-empty, all digits, and have that value |
| Strconv.Itoa | config/config.go:74 | the decimal text of an int is well formed and denotes that int |
| Strconv.AtoiItoa | config/config.go:74 | every 64-bit int survives rendering as decimal text and parsing back with Atoi, with no error |

## Where the code differs from its description

The service is described as turning a malformed `REDIS_DB` into 0. The code
passes the value to `strconv.Atoi` and discards the error
(config/config.go:74), and the model follows the code:

- Malformed text whose leading digits, after an optional sign, fit in a
  uint64 gives 0, whatever its length: "abc", "", twenty-six letters, or "1"
  followed by thirty spaces. Text of at most 19 characters always falls in
  this case.
- Malformed text whose leading digits already overflow uint64, such as
  twenty nines followed by `x`, gives `MaxInt`, or `MinInt` after a `-`. Go's
  digit loop reports the range error before it reaches the bad character.
- A well-formed value outside the int range is clamped too, not turned into 0.

`Strconv.AtoiMalformedExact` and `Config.RedisDBMalformed` state this
boundary exactly. `Strconv.AtoiOverflowBeforeBadChar` and
`Strconv.AtoiOverflowWitness` state the overflow case for both signs.

## Left out

- `godotenv.Load()` (config/config.go:63) reads a `.env` file through a foreign library. Only its effect is modelled, as the environment map passed in. The `.env` syntax and its override rules are not modelled.
- `os.LookupEnv` reads process-global state. It is replaced by membership in the `env` parameter.
- Environment keys match exactly and case-sensitively, as on Linux and macOS. On Windows `os.LookupEnv` ignores case, so `db_host` would set the DB host there. `Config.ResolveIgnoresUnrecognised` holds only where keys are case-sensitive.
- Go strings are byte strings, and the model's strings are `seq<char>`. Since `Atoi` accepts only ASCII digits and signs, the two give the same results.
- `int` is assumed to be 64 bits wide. A 32-bit platform would clamp at different bounds.
- Strconv.Atoi: Go's fast path for inputs shorter than 19 bytes is not modelled separately. It gives the same results as the general path that is modelled.
- Strconv.Atoi: the `*NumError` value is reduced to its kind (`ErrSyntax` or `ErrRange`). The function name and input text are not kept. The caller discards the error anyway.
- cmd/server/main.go is not part of this model. It covers the version flag, `os.Exit`, the calls into the application package and the Swagger annotations. It is entry-point plumbing, and the application package is not part of this model.
- The application lifecycle, signal handling and graceful shutdown are not part of this model. Their code is not in the files modelled, and they concern concurrency and OS signals.
- Config.Service.GetDBConfig, GetRedisConfig, GetServerConfig and GetJaegerConfig return the stored group unconditionally, as in Go. Their contract ties the result to the last load only for a service that keeps `Valid()`. Every constructor and method of the model establishes `Valid()`, but Dafny code outside the class could assign the fields directly.
