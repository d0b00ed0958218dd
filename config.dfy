/**
  The configuration service of the `config` package: a fixed set of
  environment keys resolved into four typed groups (database, Redis, server,
  Jaeger), each key independently, with a hard-coded default.

  The process environment, after the optional `.env` file has been loaded
  into it, is the explicit parameter `env`.
*/
module Config {
  import opened Wrappers
  import Strconv

  /** The environment as a key/value map; a key is "set" exactly when it is in the map. */
  type Env = map<string, string>

  /** Go's `error`; LoadConfig only ever returns nil, i.e. None. */
  datatype Error = Error(message: string)

  datatype DBConfig = DBConfig(Host: string, Port: string, User: string, Password: string, Name: string)

  datatype RedisConfig = RedisConfig(Host: string, Port: string, Password: string, DB: int)

  datatype ServerConf = ServerConf(Address: string, Port: string)

  datatype JaegerConfig = JaegerConfig(AgentHost: string, AgentPort: string)

  /** The four groups a Service holds. */
  datatype Groups = Groups(db: DBConfig, redis: RedisConfig, server: ServerConf, jaeger: JaegerConfig)

  /** Go's zero values, which the groups hold before the first load. */
  const ZeroGroups: Groups :=
    Groups(DBConfig("", "", "", "", ""), RedisConfig("", "", "", 0), ServerConf("", ""), JaegerConfig("", ""))

  /** The recognised environment keys. */
  datatype Key =
    | DBHost | DBPort | DBUser | DBPassword | DBName
    | RedisHost | RedisPort | RedisPassword | RedisDB
    | ServerAddr | ServerPort
    | JaegerAgentHost | JaegerAgentPort

  /** The environment variable a key is read from. */
  function Name(k: Key): string {
    match k
    case DBHost => "DB_HOST"
    case DBPort => "DB_PORT"
    case DBUser => "DB_USER"
    case DBPassword => "DB_PASSWORD"
    case DBName => "DB_NAME"
    case RedisHost => "REDIS_HOST"
    case RedisPort => "REDIS_PORT"
    case RedisPassword => "REDIS_PASSWORD"
    case RedisDB => "REDIS_DB"
    case ServerAddr => "SERVER_ADDR"
    case ServerPort => "SERVER_PORT"
    case JaegerAgentHost => "JAEGER_AGENT_HOST"
    case JaegerAgentPort => "JAEGER_AGENT_PORT"
  }

  /** The default of each key, as text. */
  function Default(k: Key): string {
    match k
    case DBHost => "localhost"
    case DBPort => "3306"
    case DBUser => "user"
    case DBPassword => "password"
    case DBName => "mydatabase"
    case RedisHost => "localhost"
    case RedisPort => "6379"
    case RedisPassword => ""
    case RedisDB => "0"
    case ServerAddr => ""
    case ServerPort => "8080"
    case JaegerAgentHost => "localhost"
    case JaegerAgentPort => "6831"
  }

  predicate Recognised(variable: string) {
    exists k: Key :: Name(k) == variable
  }

  /** What a Service holds when nothing is set. */
  const DefaultGroups: Groups :=
    Groups(
      DBConfig(Host := "localhost", Port := "3306", User := "user", Password := "password", Name := "mydatabase"),
      RedisConfig(Host := "localhost", Port := "6379", Password := "", DB := 0),
      ServerConf(Address := "", Port := "8080"),
      JaegerConfig(AgentHost := "localhost", AgentPort := "6831"))

  /**
    getEnv: a key that is set wins, even when its value is empty; the default
    is used only when the key is absent.
  */
  function GetEnv(env: Env, key: string, defaultValue: string): (value: string)
    ensures key in env ==> value == env[key]
    ensures key !in env ==> value == defaultValue
  {
    if key in env then env[key] else defaultValue
  }

  /** The resolved text of a recognised key. */
  function Setting(env: Env, k: Key): string {
    GetEnv(env, Name(k), Default(k))
  }

  /** The database group the environment determines. */
  function ResolveDB(env: Env): DBConfig {
    DBConfig(
      Port := GetEnv(env, "DB_PORT", "3306"),
      Host := GetEnv(env, "DB_HOST", "localhost"),
      User := GetEnv(env, "DB_USER", "user"),
      Password := GetEnv(env, "DB_PASSWORD", "password"),
      Name := GetEnv(env, "DB_NAME", "mydatabase"))
  }

  /** The Redis group the environment determines; DB is the int Atoi makes of REDIS_DB, its error dropped. */
  function ResolveRedis(env: Env): RedisConfig {
    var redisDB := Strconv.Atoi(GetEnv(env, "REDIS_DB", "0")).0;
    RedisConfig(
      Host := GetEnv(env, "REDIS_HOST", "localhost"),
      Port := GetEnv(env, "REDIS_PORT", "6379"),
      Password := GetEnv(env, "REDIS_PASSWORD", ""),
      DB := redisDB)
  }

  /** The server group the environment determines. */
  function ResolveServer(env: Env): ServerConf {
    ServerConf(
      Address := GetEnv(env, "SERVER_ADDR", ""),
      Port := GetEnv(env, "SERVER_PORT", "8080"))
  }

  /** The Jaeger group the environment determines. */
  function ResolveJaeger(env: Env): JaegerConfig {
    JaegerConfig(
      AgentHost := GetEnv(env, "JAEGER_AGENT_HOST", "localhost"),
      AgentPort := GetEnv(env, "JAEGER_AGENT_PORT", "6831"))
  }

  /** The four groups LoadConfig builds from the environment. */
  function Resolve(env: Env): Groups {
    Groups(ResolveDB(env), ResolveRedis(env), ResolveServer(env), ResolveJaeger(env))
  }

  /** The groups read off the table of keys and their defaults, independently of LoadConfig's code. */
  function FromTable(env: Env): Groups {
    Groups(
      DBConfig(
        Host := Setting(env, DBHost),
        Port := Setting(env, DBPort),
        User := Setting(env, DBUser),
        Password := Setting(env, DBPassword),
        Name := Setting(env, DBName)),
      RedisConfig(
        Host := Setting(env, RedisHost),
        Port := Setting(env, RedisPort),
        Password := Setting(env, RedisPassword),
        DB := Strconv.Atoi(Setting(env, RedisDB)).0),
      ServerConf(
        Address := Setting(env, ServerAddr),
        Port := Setting(env, ServerPort)),
      JaegerConfig(
        AgentHost := Setting(env, JaegerAgentHost),
        AgentPort := Setting(env, JaegerAgentPort)))
  }

  /** The field of a configuration that holds the setting of a text key (every key but RedisDB). */
  function StringField(g: Groups, k: Key): string
    requires k != RedisDB
  {
    match k
    case DBHost => g.db.Host
    case DBPort => g.db.Port
    case DBUser => g.db.User
    case DBPassword => g.db.Password
    case DBName => g.db.Name
    case RedisHost => g.redis.Host
    case RedisPort => g.redis.Port
    case RedisPassword => g.redis.Password
    case ServerAddr => g.server.Address
    case ServerPort => g.server.Port
    case JaegerAgentHost => g.jaeger.AgentHost
    case JaegerAgentPort => g.jaeger.AgentPort
  }

  /** A key that is set to the empty string resolves to the empty string, not to the default. */
  lemma GetEnvKeepsEmptyValue(env: Env, key: string, defaultValue: string)
    requires key in env && env[key] == ""
    ensures GetEnv(env, key, defaultValue) == ""
  {
  }

  /** The default shows through exactly when the key is absent or set to the default itself. */
  lemma GetEnvDefaultIff(env: Env, key: string, defaultValue: string)
    ensures GetEnv(env, key, defaultValue) == defaultValue <==> key !in env || env[key] == defaultValue
  {
  }

  /**
    Every text setting after a load is the environment's value when its key is
    set and the documented default when it is not.
  */
  lemma ResolvedStringField(env: Env, k: Key)
    requires k != RedisDB
    ensures StringField(Resolve(env), k) == if Name(k) in env then env[Name(k)] else Default(k)
  {
  }

  /** The database keys of the table, spelled out. */
  lemma DBKeys(env: Env)
    ensures Setting(env, DBHost) == GetEnv(env, "DB_HOST", "localhost")
    ensures Setting(env, DBPort) == GetEnv(env, "DB_PORT", "3306")
    ensures Setting(env, DBUser) == GetEnv(env, "DB_USER", "user")
    ensures Setting(env, DBPassword) == GetEnv(env, "DB_PASSWORD", "password")
    ensures Setting(env, DBName) == GetEnv(env, "DB_NAME", "mydatabase")
  {
  }

  /** The Redis keys of the table, spelled out. */
  lemma RedisKeys(env: Env)
    ensures Setting(env, RedisHost) == GetEnv(env, "REDIS_HOST", "localhost")
    ensures Setting(env, RedisPort) == GetEnv(env, "REDIS_PORT", "6379")
    ensures Setting(env, RedisPassword) == GetEnv(env, "REDIS_PASSWORD", "")
    ensures Setting(env, RedisDB) == GetEnv(env, "REDIS_DB", "0")
  {
  }

  /** The server keys of the table, spelled out. */
  lemma ServerKeys(env: Env)
    ensures Setting(env, ServerAddr) == GetEnv(env, "SERVER_ADDR", "")
    ensures Setting(env, ServerPort) == GetEnv(env, "SERVER_PORT", "8080")
  {
  }

  /** The Jaeger keys of the table, spelled out. */
  lemma JaegerKeys(env: Env)
    ensures Setting(env, JaegerAgentHost) == GetEnv(env, "JAEGER_AGENT_HOST", "localhost")
    ensures Setting(env, JaegerAgentPort) == GetEnv(env, "JAEGER_AGENT_PORT", "6831")
  {
  }

  /** LoadConfig's keys and defaults are exactly those of the table. */
  lemma ResolveMatchesTable(env: Env)
    ensures Resolve(env) == FromTable(env)
  {
    DBKeys(env);
    RedisKeys(env);
    ServerKeys(env);
    JaegerKeys(env);
  }

  /** After a load, each database field is its key's value when set, and its default otherwise. */
  lemma DBGroup(env: Env)
    ensures Resolve(env).db.Host == if "DB_HOST" in env then env["DB_HOST"] else "localhost"
    ensures Resolve(env).db.Port == if "DB_PORT" in env then env["DB_PORT"] else "3306"
    ensures Resolve(env).db.User == if "DB_USER" in env then env["DB_USER"] else "user"
    ensures Resolve(env).db.Password == if "DB_PASSWORD" in env then env["DB_PASSWORD"] else "password"
    ensures Resolve(env).db.Name == if "DB_NAME" in env then env["DB_NAME"] else "mydatabase"
  {
  }

  /**
    After a load, each Redis text field is its key's value when set, and its
    default otherwise; DB is Atoi's value of REDIS_DB, or of "0" when unset.
  */
  lemma RedisGroup(env: Env)
    ensures Resolve(env).redis.Host == if "REDIS_HOST" in env then env["REDIS_HOST"] else "localhost"
    ensures Resolve(env).redis.Port == if "REDIS_PORT" in env then env["REDIS_PORT"] else "6379"
    ensures Resolve(env).redis.Password == if "REDIS_PASSWORD" in env then env["REDIS_PASSWORD"] else ""
    ensures Resolve(env).redis.DB == Strconv.Atoi(if "REDIS_DB" in env then env["REDIS_DB"] else "0").0
  {
  }

  /** After a load, each server field is its key's value when set, and its default otherwise. */
  lemma ServerGroup(env: Env)
    ensures Resolve(env).server.Address == if "SERVER_ADDR" in env then env["SERVER_ADDR"] else ""
    ensures Resolve(env).server.Port == if "SERVER_PORT" in env then env["SERVER_PORT"] else "8080"
  {
  }

  /** After a load, each Jaeger field is its key's value when set, and its default otherwise. */
  lemma JaegerGroup(env: Env)
    ensures Resolve(env).jaeger.AgentHost == if "JAEGER_AGENT_HOST" in env then env["JAEGER_AGENT_HOST"] else "localhost"
    ensures Resolve(env).jaeger.AgentPort == if "JAEGER_AGENT_PORT" in env then env["JAEGER_AGENT_PORT"] else "6831"
  {
  }

  /** Every key that is unset resolves to its default, whatever the other keys hold. */
  lemma UnsetKeys(env: Env)
    ensures forall k: Key :: Name(k) !in env ==> Setting(env, k) == Default(k)
  {
  }

  /** With REDIS_DB unset, the Redis DB is 0, whatever the other keys hold. */
  lemma RedisDBUnset(env: Env)
    requires "REDIS_DB" !in env
    ensures Resolve(env).redis.DB == 0
  {
  }

  /** With none of the recognised keys set, every field takes its documented default. */
  lemma ResolveUnset(env: Env)
    requires forall k: Key :: Name(k) !in env
    ensures Resolve(env) == DefaultGroups
  {
    UnsetKeys(env);
    Strconv.AtoiZero();
    ResolveMatchesTable(env);
  }

  /** REDIS_DB set to the decimal text of an int gives exactly that int. */
  lemma RedisDBParsesExactly(env: Env, n: int)
    requires Strconv.InIntRange(n)
    requires "REDIS_DB" in env && env["REDIS_DB"] == Strconv.Itoa(n)
    ensures Resolve(env).redis.DB == n
  {
    Strconv.AtoiItoa(n);
  }

  /**
    REDIS_DB set to well-formed decimal text (a sign and leading zeros
    allowed) gives its value, clamped to the nearer int bound when it does
    not fit.
  */
  lemma RedisDBDecimal(env: Env)
    requires "REDIS_DB" in env && Strconv.IsDecimal(env["REDIS_DB"])
    ensures var v := Strconv.DecimalValue(env["REDIS_DB"]);
            Resolve(env).redis.DB == if v > Strconv.MaxInt then Strconv.MaxInt
                                     else if v < Strconv.MinInt then Strconv.MinInt
                                     else v
  {
    Strconv.AtoiDecimal(env["REDIS_DB"]);
  }

  /**
    REDIS_DB set to malformed text gives 0 exactly when its leading digits fit
    in a uint64, whatever its length; otherwise it gives the int bound of its
    sign.
  */
  lemma RedisDBMalformed(env: Env)
    requires "REDIS_DB" in env && !Strconv.IsDecimal(env["REDIS_DB"])
    ensures var s := env["REDIS_DB"];
            Resolve(env).redis.DB ==
              if Strconv.DigitPrefixFits(Strconv.Unsigned(s)) then 0
              else if s[0] == '-' then Strconv.MinInt
              else Strconv.MaxInt
  {
    Strconv.AtoiMalformedExact(env["REDIS_DB"]);
  }

  /**
    REDIS_DB set to malformed text of at most 19 characters ("abc", or set
    but empty) gives 0 and the load still succeeds.
  */
  lemma RedisDBMalformedIsZero(env: Env)
    requires "REDIS_DB" in env
    requires !Strconv.IsDecimal(env["REDIS_DB"]) && |env["REDIS_DB"]| <= 19
    ensures Resolve(env).redis.DB == 0
  {
    Strconv.AtoiMalformedShort(env["REDIS_DB"]);
  }

  /** The Redis DB number is always a 64-bit int, whatever REDIS_DB holds. */
  lemma RedisDBInRange(env: Env)
    ensures Strconv.InIntRange(Resolve(env).redis.DB)
  {
  }

  /** Setting a key the service does not recognise changes nothing. */
  lemma ResolveIgnoresUnrecognised(env: Env, key: string, value: string)
    requires !Recognised(key)
    ensures Resolve(env[key := value]) == Resolve(env)
  {
    var env' := env[key := value];
    ResolveMatchesTable(env);
    ResolveMatchesTable(env');
    forall k: Key ensures Setting(env', k) == Setting(env, k) {
      assert Name(k) != key;
    }
  }

  /** Two environments that agree on every recognised key give the same configuration. */
  lemma ResolveReadsOnlyRecognised(env1: Env, env2: Env)
    requires forall k: Key :: (Name(k) in env1 <==> Name(k) in env2)
    requires forall k: Key :: Name(k) in env1 ==> env1[Name(k)] == env2[Name(k)]
    ensures Resolve(env1) == Resolve(env2)
  {
    ResolveMatchesTable(env1);
    ResolveMatchesTable(env2);
    forall k: Key ensures Setting(env1, k) == Setting(env2, k) {
    }
  }

  /**
    DB_HOST=dbhost, DB_PORT unset and REDIS_DB=abc give host "dbhost", port
    "3306" and Redis DB 0.
  */
  lemma ScenarioHostSetPortUnsetRedisDBMalformed(env: Env)
    requires "DB_HOST" in env && env["DB_HOST"] == "dbhost"
    requires "DB_PORT" !in env
    requires "REDIS_DB" in env && env["REDIS_DB"] == "abc"
    ensures Resolve(env).db.Host == "dbhost"
    ensures Resolve(env).db.Port == "3306"
    ensures Resolve(env).redis.DB == 0
  {
  }

  /** The configuration service: a name and the four groups, which LoadConfig overwrites. */
  class Service {
    var Name: string
    var dbEnv: DBConfig
    var redisEnv: RedisConfig
    var srvConfg: ServerConf
    var jaegerConfig: JaegerConfig

    /** The environment of the most recent load, None before the first. */
    ghost var loadedFrom: Option<Env>

    function Current(): Groups
      reads this
    {
      Groups(dbEnv, redisEnv, srvConfg, jaegerConfig)
    }

    /** What the groups should hold: zero values before the first load, then what the last load resolved. */
    ghost function Expected(): Groups
      reads this
    {
      match loadedFrom
      case None => ZeroGroups
      case Some(env) => Resolve(env)
    }

    ghost predicate Valid()
      reads this
    {
      Current() == Expected()
    }

    /** NewService: the name is set and the groups are empty until the first load. */
    constructor NewService()
      ensures Valid()
      ensures Name == "go-rest-api-template"
      ensures loadedFrom == None && Current() == ZeroGroups
    {
      Name := "go-rest-api-template";
      dbEnv := ZeroGroups.db;
      redisEnv := ZeroGroups.redis;
      srvConfg := ZeroGroups.server;
      jaegerConfig := ZeroGroups.jaeger;
      loadedFrom := None;
    }

    /** Init is LoadConfig. */
    method Init(env: Env) returns (err: Option<Error>)
      modifies this
      ensures err == None
      ensures Valid() && loadedFrom == Some(env)
      ensures Current() == Resolve(env)
      ensures Name == old(Name)
    {
      err := LoadConfig(env);
    }

    /**
      Overwrites the four groups from the environment alone and never fails;
      the name is left as it was.
    */
    method LoadConfig(env: Env) returns (err: Option<Error>)
      modifies this
      ensures err == None
      ensures loadedFrom == Some(env) && Current() == Resolve(env)
      ensures Valid()
      ensures Name == old(Name)
    {
      dbEnv := ResolveDB(env);
      redisEnv := ResolveRedis(env);
      srvConfg := ResolveServer(env);
      jaegerConfig := ResolveJaeger(env);
      loadedFrom := Some(env);
      err := None;
    }

    /** The database group of the last load (zero values before any). */
    function GetDBConfig(): (c: DBConfig)
      reads this
      ensures Valid() ==> c == Expected().db
    {
      dbEnv
    }

    /** The Redis group of the last load (zero values before any). */
    function GetRedisConfig(): (c: RedisConfig)
      reads this
      ensures Valid() ==> c == Expected().redis
    {
      redisEnv
    }

    /** The server group of the last load (zero values before any). */
    function GetServerConfig(): (c: ServerConf)
      reads this
      ensures Valid() ==> c == Expected().server
    {
      srvConfg
    }

    /** The Jaeger group of the last load (zero values before any). */
    function GetJaegerConfig(): (c: JaegerConfig)
      reads this
      ensures Valid() ==> c == Expected().jaeger
    {
      jaegerConfig
    }
  }

  /** Loading twice from the same environment leaves the groups as one load does. */
  method LoadConfigTwice(s: Service, env: Env)
    modifies s
    ensures s.Current() == Resolve(env) && s.Name == old(s.Name)
  {
    var _ := s.LoadConfig(env);
    ghost var once := s.Current();
    var _ := s.LoadConfig(env);
    assert s.Current() == once;
  }
}
