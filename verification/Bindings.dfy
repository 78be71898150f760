/** How a connection to a backing becomes container env (the env closures of
    reconcileBacking, and containerEnvFrom). */
module Bindings {
  import opened Objects
  import opened Shapes
  import opened Sorting

  /** What reconcileBacking captures for a provisioned backing. */
  datatype Binding =
    | PostgresBinding(secret: string)
    | ObjectBinding(name: string)
    | TemplateBinding(def: ServiceDefinition, secret: string)
    | FallbackBinding(secret: string)

  datatype Backing = Backing(ready: bool, binding: Binding)

  function PostgresEnv(secret: string, alias: string): seq<EnvVar> {
    [EnvVar(alias, SecretRef(secret, "uri")), EnvVar("PGHOST", SecretRef(secret, "host")),
     EnvVar("PGPORT", SecretRef(secret, "port")), EnvVar("PGDATABASE", SecretRef(secret, "dbname")),
     EnvVar("PGUSER", SecretRef(secret, "user")), EnvVar("PGPASSWORD", SecretRef(secret, "password"))]
  }

  function ObjectEnv(cfg: Config, name: string, alias: string): seq<EnvVar> {
    (if alias != "" && alias != "S3_ENDPOINT" then [EnvVar(alias, Literal(cfg.endpoint))] else []) +
    [EnvVar("S3_ENDPOINT", Literal(cfg.endpoint)), EnvVar("S3_BUCKET", ConfigRef(name, "BUCKET_NAME")),
     EnvVar("S3_REGION", Literal("us-east-1")), EnvVar("AWS_DEFAULT_REGION", Literal("us-east-1")),
     EnvVar("S3_ACCESS_KEY_ID", SecretRef(name, "AWS_ACCESS_KEY_ID")),
     EnvVar("S3_SECRET_ACCESS_KEY", SecretRef(name, "AWS_SECRET_ACCESS_KEY")),
     EnvVar("AWS_ACCESS_KEY_ID", SecretRef(name, "AWS_ACCESS_KEY_ID")),
     EnvVar("AWS_SECRET_ACCESS_KEY", SecretRef(name, "AWS_SECRET_ACCESS_KEY"))]
  }

  function FallbackEnv(secret: string, alias: string): seq<EnvVar> {
    (if alias != "" then [EnvVar(alias, SecretRef(secret, "endpoint"))] else []) +
    [EnvVar("FALLBACK_HOST", SecretRef(secret, "host")), EnvVar("FALLBACK_PORT", SecretRef(secret, "port"))]
  }

  /** Env vars from a map envName -> secret key, in the order of `names`. */
  function SecretEnv(m: map<string, string>, names: seq<string>, secret: string): seq<EnvVar>
    requires forall n | n in names :: n in m
  {
    seq(|names|, i requires 0 <= i < |names| => EnvVar(names[i], SecretRef(secret, m[names[i]])))
  }

  ghost function SortedSecretEnv(m: map<string, string>, secret: string): seq<EnvVar> {
    SecretEnv(m, Order(m.Keys), secret)
  }

  lemma SortedRefers(m: map<string, string>, secret: string)
    ensures Refers(SortedSecretEnv(m, secret), m, secret)
  {
    hide Less;
    var names, env := Order(m.Keys), SortedSecretEnv(m, secret);
    forall n | n in m ensures EnvVar(n, SecretRef(secret, m[n])) in env {
      var i :| 0 <= i < |names| && names[i] == n;
      assert env[i] == EnvVar(n, SecretRef(secret, m[n]));
    }
    forall i | 0 <= i < |env| ensures env[i].name in m && env[i].source == SecretRef(secret, m[env[i].name]) {
      assert names[i] in names;
    }
  }

  ghost function TemplatedEnv(def: ServiceDefinition, secret: string, alias: string): seq<EnvVar> {
    (if alias != "" then [EnvVar(alias, SecretRef(secret, def.primaryKey))] else []) +
    SortedSecretEnv(def.extra, secret)
  }

  ghost function BindingEnv(cfg: Config, b: Binding, alias: string): seq<EnvVar> {
    match b
    case PostgresBinding(secret) => PostgresEnv(secret, alias)
    case ObjectBinding(name) => ObjectEnv(cfg, name, alias)
    case TemplateBinding(def, secret) => TemplatedEnv(def, secret, alias)
    case FallbackBinding(secret) => FallbackEnv(secret, alias)
  }

  method ContainerEnvFrom(m: map<string, string>, secret: string) returns (out: seq<EnvVar>)
    ensures out == SortedSecretEnv(m, secret)
  {
    out := [];
    var names := SortedKeys(m);
    for i := 0 to |names|
      invariant |out| == i && forall j | 0 <= j < i :: out[j] == SortedSecretEnv(m, secret)[j]
    {
      assert names[i] in names;
      out := out + [EnvVar(names[i], SecretRef(secret, m[names[i]]))];
    }
  }

  method Bind(cfg: Config, b: Binding, alias: string) returns (out: seq<EnvVar>)
    ensures out == BindingEnv(cfg, b, alias)
  {
    match b
    case PostgresBinding(secret) => out := PostgresEnv(secret, alias);
    case ObjectBinding(name) => out := ObjectEnv(cfg, name, alias);
    case FallbackBinding(secret) => out := FallbackEnv(secret, alias);
    case TemplateBinding(def, secret) =>
      var extra := ContainerEnvFrom(def.extra, secret);
      out := (if alias != "" then [EnvVar(alias, SecretRef(secret, def.primaryKey))] else []) + extra;
  }
}
