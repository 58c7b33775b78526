/** customfunctions/connection.py: the SnowflakeConnection settings record,
    how its settings are merged from a YAML section and the environment, how
    per-call overrides and the credential are resolved into connection
    parameters, and the session cache keyed by (role, warehouse, database).

    The SDK is foreign: a session is an opaque handle; creating one,
    switching its schema and loading a private key are function parameters
    that may fail; and the calls made on sessions are returned as a trace of
    SdkCall values. */
module Connection {
  import opened Results

  newtype byte = x: int | 0 <= x < 256

  /** A parsed YAML value: the configuration file and query tags. */
  datatype Json =
    | Null
    | Bool(b: bool)
    | Num(n: int)
    | Str(s: string)
    | List(items: seq<Json>)
    | Obj(fields: map<string, Json>)

  /** A query tag: a string-keyed dictionary. */
  type Tag = map<string, Json>

  /** The validated fields of a SnowflakeConnection. */
  datatype Settings = Settings(
    account: string,
    user: string,
    password: Option<string>,
    privateKeyPath: Option<string>,
    privateKeyPem: Option<string>,
    authenticator: Option<string>,
    role: string,
    warehouse: string,
    database: Option<string>,
    schema: Option<string>,
    queryTag: Option<Tag>)

  const DefaultRole: string := "DATASCIENTIST"
  const DefaultWarehouse: string := "DS_WH_XS"

  // ---------------------------------------------------------------------
  // Python truthiness of optional strings
  // ---------------------------------------------------------------------

  /** `bool(o)` for an `Optional[str]`: neither None nor empty. */
  predicate Truthy(o: Option<string>) {
    o.Some? && o.value != ""
  }

  /** `a or b` for two optional strings. */
  function Or(a: Option<string>, b: Option<string>): Option<string> {
    if Truthy(a) then a else b
  }

  /** `a or b` where the fallback is a plain string. */
  function OrText(a: Option<string>, b: string): string {
    if Truthy(a) then a.value else b
  }

  /** `query_tag or self.query_tag`: an empty dictionary is falsy. */
  function OrTag(a: Option<Tag>, b: Option<Tag>): Option<Tag> {
    if a.Some? && a.value != map[] then a else b
  }

  // ---------------------------------------------------------------------
  // Default query tag and the tag a session receives
  // ---------------------------------------------------------------------

  /** `_get_default_query_tag`. */
  function DefaultQueryTag(s: Settings): (t: Tag)
    ensures t.Keys == {"origin", "name", "version", "attributes"}
    ensures t["origin"] == Str("snowpark_session") && t["name"] == Str(s.user)
    ensures t["version"] == Obj(map["major" := Num(1), "minor" := Num(0)])
    ensures t["attributes"].Obj? && t["attributes"].fields.Keys == {"source", "warehouse", "role"}
    ensures t["attributes"].fields["warehouse"] == Str(s.warehouse)
    ensures t["attributes"].fields["role"] == Str(s.role)
    ensures var src := t["attributes"].fields["source"];
      && src.Str? && src.s != ""
      && (Truthy(s.database) ==> src == Str(s.database.value))
      && (!Truthy(s.database) ==> src == Str("DATASCIENCE"))
  {
    map[
      "origin" := Str("snowpark_session"),
      "name" := Str(s.user),
      "version" := Obj(map["major" := Num(1), "minor" := Num(0)]),
      "attributes" := Obj(map[
        "source" := Str(OrText(s.database, "DATASCIENCE")),
        "warehouse" := Str(s.warehouse),
        "role" := Str(s.role)])
    ]
  }

  /** The tag `_set_query_tag` assigns: the per-call tag when it is a
      non-empty dictionary, else the stored tag when there is one (even an
      empty one), else the default tag. */
  function EffectiveQueryTag(callTag: Option<Tag>, s: Settings): (t: Tag)
    ensures callTag.Some? && callTag.value != map[] ==> t == callTag.value
    ensures (callTag.None? || callTag.value == map[]) && s.queryTag.Some? ==> t == s.queryTag.value
    ensures (callTag.None? || callTag.value == map[]) && s.queryTag.None? ==> t == DefaultQueryTag(s)
  {
    match OrTag(callTag, s.queryTag)
    case Some(custom) => custom
    case None => DefaultQueryTag(s)
  }

  // ---------------------------------------------------------------------
  // Configuration: YAML section merged with environment variables
  // ---------------------------------------------------------------------

  datatype ConfigError =
    | DocumentNotMapping        // the parsed file has no `.get` (empty file, list, scalar)
    | SectionNotMapping         // the `snowflake` entry is not a dictionary
    | MissingField(field: string)
    | WrongType(field: string)

  /** One entry of the fixed environment-variable table. */
  datatype EnvBinding = EnvBinding(name: string, field: string)

  const EnvVars: seq<EnvBinding> := [
    EnvBinding("SNOWFLAKE_ACCOUNT", "account"),
    EnvBinding("SNOWFLAKE_USER", "user"),
    EnvBinding("SNOWFLAKE_PASSWORD", "password"),
    EnvBinding("SNOWFLAKE_ROLE", "role"),
    EnvBinding("SNOWFLAKE_WAREHOUSE", "warehouse"),
    EnvBinding("SNOWFLAKE_DATABASE", "database"),
    EnvBinding("SNOWFLAKE_SCHEMA", "schema"),
    EnvBinding("SNOWFLAKE_PRIVATE_KEY_PATH", "private_key_path"),
    EnvBinding("SNOWFLAKE_AUTHENTICATOR", "authenticator")
  ]

  /** The settings fields the environment can supply. */
  const EnvFields: set<string> := set j | 0 <= j < |EnvVars| :: EnvVars[j].field

  /** `if value := os.getenv(name)`: the variable exists and is non-empty. */
  predicate IsSet(env: map<string, string>, name: string) {
    name in env && env[name] != ""
  }

  /** No two table entries share a variable name or a field. */
  lemma EnvVarsDistinct()
    ensures forall a, b :: 0 <= a < b < |EnvVars| ==> EnvVars[a].field != EnvVars[b].field
    ensures forall a, b :: 0 <= a < b < |EnvVars| ==> EnvVars[a].name != EnvVars[b].name
  {
  }

  /** The fields among the first `n` table entries whose variable is set. */
  function SetFieldsOf(env: map<string, string>, n: nat): (r: set<string>)
    requires n <= |EnvVars|
    ensures r <= EnvFields
    ensures forall j :: 0 <= j < n && IsSet(env, EnvVars[j].name) ==> EnvVars[j].field in r
    ensures forall j :: 0 <= j < n && !IsSet(env, EnvVars[j].name) ==> EnvVars[j].field !in r
    ensures forall j :: n <= j < |EnvVars| ==> EnvVars[j].field !in r
    decreases n
  {
    if n == 0 then {}
    else
      var b := EnvVars[n - 1];
      EnvVarsDistinct();
      SetFieldsOf(env, n - 1) + (if IsSet(env, b.name) then {b.field} else {})
  }

  /** The fields the environment overrides. */
  function SetFields(env: map<string, string>): set<string> {
    SetFieldsOf(env, |EnvVars|)
  }

  /** The YAML map after the first `n` iterations of the override loop. */
  function OverrideFirst(config: map<string, Json>, env: map<string, string>, n: nat): (r: map<string, Json>)
    requires n <= |EnvVars|
    ensures config.Keys <= r.Keys <= config.Keys + EnvFields
    decreases n
  {
    if n == 0 then config
    else
      var m := OverrideFirst(config, env, n - 1);
      var b := EnvVars[n - 1];
      if IsSet(env, b.name) then m[b.field := Str(env[b.name])] else m
  }

  /** The YAML map after the whole override loop. */
  function EnvOverride(config: map<string, Json>, env: map<string, string>): (r: map<string, Json>)
    ensures r.Keys == config.Keys + SetFields(env)
  {
    OverrideFirstKeys(config, env, |EnvVars|);
    OverrideFirst(config, env, |EnvVars|)
  }

  lemma {:induction false} OverrideFirstKeys(config: map<string, Json>, env: map<string, string>, n: nat)
    requires n <= |EnvVars|
    ensures OverrideFirst(config, env, n).Keys == config.Keys + SetFieldsOf(env, n)
    decreases n
  {
    if n > 0 {
      OverrideFirstKeys(config, env, n - 1);
    }
  }

  lemma {:induction false} OverrideFirstKeeps(config: map<string, Json>, env: map<string, string>, n: nat, k: string)
    requires n <= |EnvVars|
    requires k in config && k !in SetFieldsOf(env, n)
    ensures k in OverrideFirst(config, env, n) && OverrideFirst(config, env, n)[k] == config[k]
    decreases n
  {
    if n > 0 {
      OverrideFirstKeeps(config, env, n - 1, k);
    }
  }

  lemma {:induction false} OverrideFirstSets(config: map<string, Json>, env: map<string, string>, n: nat, j: nat)
    requires j < n <= |EnvVars| && IsSet(env, EnvVars[j].name)
    ensures EnvVars[j].field in OverrideFirst(config, env, n)
    ensures OverrideFirst(config, env, n)[EnvVars[j].field] == Str(env[EnvVars[j].name])
    decreases n
  {
    if j < n - 1 {
      OverrideFirstSets(config, env, n - 1, j);
      EnvVarsDistinct();
    }
  }

  /** Every mapped variable with a non-empty value replaces its field. */
  lemma EnvOverrideWins(config: map<string, Json>, env: map<string, string>, j: nat)
    requires j < |EnvVars| && IsSet(env, EnvVars[j].name)
    ensures EnvVars[j].field in EnvOverride(config, env)
    ensures EnvOverride(config, env)[EnvVars[j].field] == Str(env[EnvVars[j].name])
  {
    OverrideFirstSets(config, env, |EnvVars|, j);
  }

  /** A field whose variable is unset or empty, and every key outside the
      table, keeps its YAML value (or stays absent); nothing outside the
      table is introduced. */
  lemma EnvOverrideKeeps(config: map<string, Json>, env: map<string, string>, k: string)
    requires k !in SetFields(env)
    ensures k in EnvOverride(config, env) <==> k in config
    ensures k in config ==> EnvOverride(config, env)[k] == config[k]
  {
    OverrideFirstKeys(config, env, |EnvVars|);
    if k in config {
      OverrideFirstKeeps(config, env, |EnvVars|, k);
    }
  }

  /** The environment adds no key outside the table. */
  lemma EnvOverrideKeys(config: map<string, Json>, env: map<string, string>)
    ensures EnvOverride(config, env).Keys <= config.Keys + EnvFields
  {
  }

  /** The for-loop of `from_yaml` over the environment-variable table. */
  method ApplyEnvOverrides(config: map<string, Json>, env: map<string, string>) returns (merged: map<string, Json>)
    ensures merged == EnvOverride(config, env)
  {
    merged := config;
    for i := 0 to |EnvVars|
      invariant merged == OverrideFirst(config, env, i)
    {
      var b := EnvVars[i];
      if b.name in env && env[b.name] != "" {
        merged := merged[b.field := Str(env[b.name])];
      }
    }
  }

  /** `yaml.safe_load(file).get('snowflake', {})`, or `{}` when the file
      does not exist (`doc` is None). */
  function YamlSection(doc: Option<Json>): (r: Result<map<string, Json>, ConfigError>)
    ensures doc.None? ==> r == Ok(map[])
    ensures r.Ok? && doc.Some? ==>
      && doc.value.Obj?
      && (if "snowflake" in doc.value.fields then doc.value.fields["snowflake"] == Obj(r.value) else r.value == map[])
    ensures r.Err? ==>
      && doc.Some?
      && (!doc.value.Obj? || ("snowflake" in doc.value.fields && !doc.value.fields["snowflake"].Obj?))
  {
    match doc
    case None => Ok(map[])
    case Some(Obj(top)) =>
      if "snowflake" !in top then Ok(map[])
      else if top["snowflake"].Obj? then Ok(top["snowflake"].fields)
      else Err(SectionNotMapping)
    case Some(_) => Err(DocumentNotMapping)
  }

  /** A required `str` field. */
  function RequiredText(c: map<string, Json>, field: string): (r: Result<string, ConfigError>)
    ensures r.Ok? <==> field in c && c[field].Str?
    ensures r.Ok? ==> r.value == c[field].s
    ensures r.Err? ==> r.error == (if field in c then WrongType(field) else MissingField(field))
  {
    if field !in c then Err(MissingField(field))
    else if c[field].Str? then Ok(c[field].s)
    else Err(WrongType(field))
  }

  /** A `str` field with a default value. */
  function TextOrDefault(c: map<string, Json>, field: string, default: string): (r: Result<string, ConfigError>)
    ensures field !in c ==> r == Ok(default)
    ensures field in c ==> (r.Ok? <==> c[field].Str?) && (r.Ok? ==> r.value == c[field].s)
    ensures r.Err? ==> r.error == WrongType(field)
  {
    if field !in c then Ok(default)
    else if c[field].Str? then Ok(c[field].s)
    else Err(WrongType(field))
  }

  /** An `Optional[str]` (or `Optional[Path]`) field: absent or null is None. */
  function OptionalText(c: map<string, Json>, field: string): (r: Result<Option<string>, ConfigError>)
    ensures field !in c || c[field].Null? ==> r == Ok(None)
    ensures field in c && c[field].Str? ==> r == Ok(Some(c[field].s))
    ensures r.Err? <==> field in c && !c[field].Null? && !c[field].Str?
    ensures r.Err? ==> r.error == WrongType(field)
  {
    if field !in c || c[field].Null? then Ok(None)
    else if c[field].Str? then Ok(Some(c[field].s))
    else Err(WrongType(field))
  }

  /** The `Optional[Dict[str, Any]]` query tag field. */
  function OptionalTag(c: map<string, Json>, field: string): (r: Result<Option<Tag>, ConfigError>)
    ensures field !in c || c[field].Null? ==> r == Ok(None)
    ensures field in c && c[field].Obj? ==> r == Ok(Some(c[field].fields))
    ensures r.Err? <==> field in c && !c[field].Null? && !c[field].Obj?
    ensures r.Err? ==> r.error == WrongType(field)
  {
    if field !in c || c[field].Null? then Ok(None)
    else if c[field].Obj? then Ok(Some(c[field].fields))
    else Err(WrongType(field))
  }

  /** `cls(**config)`: builds the settings record, reporting the first
      field that is missing or of the wrong type; other keys are ignored. */
  function SettingsFromConfig(c: map<string, Json>): (r: Result<Settings, ConfigError>)
    ensures "account" !in c ==> r == Err(MissingField("account"))
    ensures r.Ok? ==> "account" in c && c["account"] == Str(r.value.account)
    ensures r.Ok? ==> "user" in c && c["user"] == Str(r.value.user)
    ensures r.Ok? ==> if "role" in c then c["role"] == Str(r.value.role) else r.value.role == DefaultRole
    ensures r.Ok? ==> if "warehouse" in c then c["warehouse"] == Str(r.value.warehouse) else r.value.warehouse == DefaultWarehouse
    // Construction succeeds exactly when every field validates.
    ensures r.Ok? <==>
      && RequiredText(c, "account").Ok? && RequiredText(c, "user").Ok?
      && OptionalText(c, "password").Ok? && OptionalText(c, "private_key_path").Ok?
      && OptionalText(c, "private_key_pem").Ok? && OptionalText(c, "authenticator").Ok?
      && TextOrDefault(c, "role", DefaultRole).Ok? && TextOrDefault(c, "warehouse", DefaultWarehouse).Ok?
      && OptionalText(c, "database").Ok? && OptionalText(c, "schema").Ok?
      && OptionalTag(c, "query_tag").Ok?
    // Each optional field is the value its validator produced.
    ensures r.Ok? ==>
      && Ok(r.value.password) == OptionalText(c, "password")
      && Ok(r.value.privateKeyPath) == OptionalText(c, "private_key_path")
      && Ok(r.value.privateKeyPem) == OptionalText(c, "private_key_pem")
      && Ok(r.value.authenticator) == OptionalText(c, "authenticator")
      && Ok(r.value.database) == OptionalText(c, "database")
      && Ok(r.value.schema) == OptionalText(c, "schema")
      && Ok(r.value.queryTag) == OptionalTag(c, "query_tag")
    // Every field the environment can supply reads back as the string given for it.
    ensures r.Ok? ==> forall f :: f in EnvFields && f in c && c[f].Str? ==> FieldText(r.value, f) == Some(c[f].s)
  {
    var account :- RequiredText(c, "account");
    var user :- RequiredText(c, "user");
    var password :- OptionalText(c, "password");
    var keyPath :- OptionalText(c, "private_key_path");
    var keyPem :- OptionalText(c, "private_key_pem");
    var authenticator :- OptionalText(c, "authenticator");
    var role :- TextOrDefault(c, "role", DefaultRole);
    var warehouse :- TextOrDefault(c, "warehouse", DefaultWarehouse);
    var database :- OptionalText(c, "database");
    var schema :- OptionalText(c, "schema");
    var queryTag :- OptionalTag(c, "query_tag");
    Ok(Settings(account, user, password, keyPath, keyPem, authenticator,
                role, warehouse, database, schema, queryTag))
  }

  /** The value of a settings field named as in the environment table, as
      an optional string. */
  function FieldText(s: Settings, field: string): Option<string> {
    match field
    case "account" => Some(s.account)
    case "user" => Some(s.user)
    case "password" => s.password
    case "role" => Some(s.role)
    case "warehouse" => Some(s.warehouse)
    case "database" => s.database
    case "schema" => s.schema
    case "private_key_path" => s.privateKeyPath
    case "authenticator" => s.authenticator
    case _ => None
  }

  /** What `from_yaml` builds from the parsed file and the environment. */
  function ConfigFromYaml(doc: Option<Json>, env: map<string, string>): (r: Result<Settings, ConfigError>)
    ensures YamlSection(doc).Err? ==> r == Err(YamlSection(doc).error)
    // A good section is validated after the environment has been merged into it.
    ensures YamlSection(doc).Ok? ==> r == SettingsFromConfig(EnvOverride(YamlSection(doc).value, env))
    // Every mapped variable with a non-empty value ends up in its settings field.
    ensures r.Ok? ==> forall j :: 0 <= j < |EnvVars| && IsSet(env, EnvVars[j].name) ==>
      FieldText(r.value, EnvVars[j].field) == Some(env[EnvVars[j].name])
    // A field whose variable is unset or empty keeps the string the YAML gave it.
    ensures r.Ok? ==> var yaml := YamlSection(doc).value;
      forall j :: 0 <= j < |EnvVars| && !IsSet(env, EnvVars[j].name) && EnvVars[j].field in yaml && yaml[EnvVars[j].field].Str?
        ==> FieldText(r.value, EnvVars[j].field) == Some(yaml[EnvVars[j].field].s)
  {
    var section :- YamlSection(doc);
    var merged := EnvOverride(section, env);
    EnvOverrideAll(section, env);
    assert forall j :: 0 <= j < |EnvVars| ==> EnvVars[j].field in EnvFields;
    SettingsFromConfig(merged)
  }

  /** `EnvOverrideWins` and `EnvOverrideKeeps` for every table entry. */
  lemma EnvOverrideAll(config: map<string, Json>, env: map<string, string>)
    ensures forall j :: 0 <= j < |EnvVars| && IsSet(env, EnvVars[j].name) ==>
      EnvVars[j].field in EnvOverride(config, env) &&
      EnvOverride(config, env)[EnvVars[j].field] == Str(env[EnvVars[j].name])
    ensures forall j :: 0 <= j < |EnvVars| && !IsSet(env, EnvVars[j].name) && EnvVars[j].field in config ==>
      EnvVars[j].field in EnvOverride(config, env) &&
      EnvOverride(config, env)[EnvVars[j].field] == config[EnvVars[j].field]
  {
    forall j | 0 <= j < |EnvVars| && IsSet(env, EnvVars[j].name)
      ensures EnvVars[j].field in EnvOverride(config, env)
      ensures EnvOverride(config, env)[EnvVars[j].field] == Str(env[EnvVars[j].name])
    {
      EnvOverrideWins(config, env, j);
    }
    forall j | 0 <= j < |EnvVars| && !IsSet(env, EnvVars[j].name) && EnvVars[j].field in config
      ensures EnvVars[j].field in EnvOverride(config, env)
      ensures EnvOverride(config, env)[EnvVars[j].field] == config[EnvVars[j].field]
    {
      EnvOverrideKeeps(config, env, EnvVars[j].field);
    }
  }

  /** Role and warehouse: a non-empty environment variable wins over the
      YAML value, which wins over the class default. */
  lemma FromYamlRoleAndWarehouse(doc: Option<Json>, env: map<string, string>)
    requires YamlSection(doc).Ok? && ConfigFromYaml(doc, env).Ok?
    ensures var s, yaml := ConfigFromYaml(doc, env).value, YamlSection(doc).value;
      && (IsSet(env, "SNOWFLAKE_ROLE") ==> s.role == env["SNOWFLAKE_ROLE"])
      && (!IsSet(env, "SNOWFLAKE_ROLE") && "role" in yaml ==> Str(s.role) == yaml["role"])
      && (!IsSet(env, "SNOWFLAKE_ROLE") && "role" !in yaml ==> s.role == DefaultRole)
      && (IsSet(env, "SNOWFLAKE_WAREHOUSE") ==> s.warehouse == env["SNOWFLAKE_WAREHOUSE"])
      && (!IsSet(env, "SNOWFLAKE_WAREHOUSE") && "warehouse" in yaml ==> Str(s.warehouse) == yaml["warehouse"])
      && (!IsSet(env, "SNOWFLAKE_WAREHOUSE") && "warehouse" !in yaml ==> s.warehouse == DefaultWarehouse)
  {
    var yaml := YamlSection(doc).value;
    assert EnvVars[3] == EnvBinding("SNOWFLAKE_ROLE", "role");
    assert EnvVars[4] == EnvBinding("SNOWFLAKE_WAREHOUSE", "warehouse");
    if IsSet(env, "SNOWFLAKE_ROLE") {
      EnvOverrideWins(yaml, env, 3);
    } else {
      EnvOverrideKeeps(yaml, env, "role");
    }
    if IsSet(env, "SNOWFLAKE_WAREHOUSE") {
      EnvOverrideWins(yaml, env, 4);
    } else {
      EnvOverrideKeeps(yaml, env, "warehouse");
    }
  }

  /** A YAML section without an account fails unless the environment
      supplies one; with one from the environment, the environment's wins. */
  lemma FromYamlAccount(doc: Option<Json>, env: map<string, string>)
    requires YamlSection(doc).Ok?
    ensures !IsSet(env, "SNOWFLAKE_ACCOUNT") && "account" !in YamlSection(doc).value ==>
      ConfigFromYaml(doc, env) == Err(MissingField("account"))
    ensures IsSet(env, "SNOWFLAKE_ACCOUNT") && ConfigFromYaml(doc, env).Ok? ==>
      ConfigFromYaml(doc, env).value.account == env["SNOWFLAKE_ACCOUNT"]
  {
    var yaml := YamlSection(doc).value;
    assert EnvVars[0] == EnvBinding("SNOWFLAKE_ACCOUNT", "account");
    if IsSet(env, "SNOWFLAKE_ACCOUNT") {
      EnvOverrideWins(yaml, env, 0);
    } else {
      EnvOverrideKeeps(yaml, env, "account");
    }
  }

  /** With an account available, a YAML section without a user fails unless
      the environment supplies one; with one from the environment, the
      environment's wins. */
  lemma FromYamlUser(doc: Option<Json>, env: map<string, string>)
    requires YamlSection(doc).Ok?
    ensures var yaml := YamlSection(doc).value;
      && (IsSet(env, "SNOWFLAKE_ACCOUNT") || ("account" in yaml && yaml["account"].Str?))
      && !IsSet(env, "SNOWFLAKE_USER") && "user" !in yaml
      ==> ConfigFromYaml(doc, env) == Err(MissingField("user"))
    ensures IsSet(env, "SNOWFLAKE_USER") && ConfigFromYaml(doc, env).Ok? ==>
      ConfigFromYaml(doc, env).value.user == env["SNOWFLAKE_USER"]
  {
    var yaml := YamlSection(doc).value;
    assert EnvVars[0] == EnvBinding("SNOWFLAKE_ACCOUNT", "account");
    assert EnvVars[1] == EnvBinding("SNOWFLAKE_USER", "user");
    if IsSet(env, "SNOWFLAKE_ACCOUNT") {
      EnvOverrideWins(yaml, env, 0);
    } else {
      EnvOverrideKeeps(yaml, env, "account");
    }
    if IsSet(env, "SNOWFLAKE_USER") {
      EnvOverrideWins(yaml, env, 1);
    } else {
      EnvOverrideKeeps(yaml, env, "user");
    }
  }

  // ---------------------------------------------------------------------
  // Credentials and connection parameters
  // ---------------------------------------------------------------------

  datatype AuthError =
    | NoAuthMethod                  // no authenticator, private key or password
    | KeyLoadFailed(reason: string)  // "Error loading private key: ..."
    | SessionCreateFailed(reason: string)  // "Failed to create session: ..."

  /** Where `_load_private_key` reads key material from. */
  datatype KeySource = PemText(pem: string) | KeyFile(path: string)

  /** Reading and converting PEM key material to PKCS8 DER; may fail. */
  type KeyLoader = KeySource -> Result<seq<byte>, string>

  /** The credential `get_connection_params` chooses. */
  datatype AuthMethod =
    | Authenticator(name: string)
    | PrivateKey(source: KeySource)
    | Password(password: string)

  /** The key source: PEM text when non-empty, otherwise the path. A
      `pathlib.Path` is always truthy, so any path present counts. */
  function KeySourceOf(s: Settings): (r: Option<KeySource>)
    ensures r.Some? <==> Truthy(s.privateKeyPem) || s.privateKeyPath.Some?
    ensures r.Some? && r.value.PemText? <==> Truthy(s.privateKeyPem)
    ensures r.Some? && r.value.PemText? ==> s.privateKeyPem == Some(r.value.pem)
    ensures r.Some? && r.value.KeyFile? ==> s.privateKeyPath == Some(r.value.path)
  {
    if Truthy(s.privateKeyPem) then Some(PemText(s.privateKeyPem.value))
    else if s.privateKeyPath.Some? then Some(KeyFile(s.privateKeyPath.value))
    else None
  }

  /** `_load_private_key`: every failure, including a missing source,
      becomes an authentication error. */
  function LoadPrivateKey(s: Settings, loadKey: KeyLoader): (r: Result<seq<byte>, AuthError>)
    ensures r.Err? ==> r.error.KeyLoadFailed?
    ensures KeySourceOf(s).Some? && r.Err? ==>
      loadKey(KeySourceOf(s).value).Err? && r.error == KeyLoadFailed(loadKey(KeySourceOf(s).value).error)
    ensures !Truthy(s.privateKeyPem) && s.privateKeyPath.None? ==> r.Err?
    ensures Truthy(s.privateKeyPem) ==>
      (r.Ok? <==> loadKey(PemText(s.privateKeyPem.value)).Ok?) &&
      (r.Ok? ==> r.value == loadKey(PemText(s.privateKeyPem.value)).value)
    ensures !Truthy(s.privateKeyPem) && s.privateKeyPath.Some? ==>
      (r.Ok? <==> loadKey(KeyFile(s.privateKeyPath.value)).Ok?) &&
      (r.Ok? ==> r.value == loadKey(KeyFile(s.privateKeyPath.value)).value)
  {
    match KeySourceOf(s)
    case None => Err(KeyLoadFailed("No private key source available"))
    case Some(src) =>
      match loadKey(src)
      case Ok(der) => Ok(der)
      case Err(msg) => Err(KeyLoadFailed(msg))
  }

  /** Whether any of the three credentials is configured. */
  predicate HasCredential(s: Settings) {
    Truthy(s.authenticator) || Truthy(s.privateKeyPem) || s.privateKeyPath.Some? || Truthy(s.password)
  }

  /** The credential, by priority: authenticator, private key, password. */
  function ChooseAuth(s: Settings): (r: Option<AuthMethod>)
    ensures r.Some? <==> HasCredential(s)
    ensures r.Some? && r.value.Authenticator? <==> Truthy(s.authenticator)
    ensures r.Some? && r.value.PrivateKey? <==>
      !Truthy(s.authenticator) && (Truthy(s.privateKeyPem) || s.privateKeyPath.Some?)
    ensures r.Some? && r.value.Password? <==>
      !Truthy(s.authenticator) && !Truthy(s.privateKeyPem) && s.privateKeyPath.None? && Truthy(s.password)
    ensures r.Some? && r.value.Authenticator? ==> s.authenticator == Some(r.value.name)
    ensures r.Some? && r.value.PrivateKey? ==> KeySourceOf(s) == Some(r.value.source)
    ensures r.Some? && r.value.Password? ==> s.password == Some(r.value.password)
  {
    if Truthy(s.authenticator) then Some(Authenticator(s.authenticator.value))
    else if Truthy(s.privateKeyPem) || s.privateKeyPath.Some? then Some(PrivateKey(KeySourceOf(s).value))
    else if Truthy(s.password) then Some(Password(s.password.value))
    else None
  }

  /** Per-call overrides of `get_connection_params` and `get_session`. */
  datatype Overrides = Overrides(
    role: Option<string>,
    warehouse: Option<string>,
    database: Option<string>,
    schema: Option<string>)

  datatype ParamValue = Text(text: string) | KeyBytes(der: seq<byte>)

  type Params = map<string, ParamValue>

  const CredentialKeys: set<string> := {"authenticator", "private_key", "password"}

  const PlainKeys: set<string> := {"account", "user", "role", "warehouse", "database", "schema"}

  /** The parameter key each credential is passed under. */
  function CredentialKey(m: AuthMethod): string {
    match m
    case Authenticator(_) => "authenticator"
    case PrivateKey(_) => "private_key"
    case Password(_) => "password"
  }

  /** The parameters without the credential, after applying the overrides. */
  function PlainParams(s: Settings, o: Overrides): (r: Params)
    ensures r.Keys == {"account", "user", "role", "warehouse"}
      + (if Truthy(o.database) || Truthy(s.database) then {"database"} else {})
      + (if Truthy(o.schema) || Truthy(s.schema) then {"schema"} else {})
    ensures r.Keys * CredentialKeys == {}
    ensures "database" in r ==> r["database"].Text? && r["database"].text != ""
    ensures "schema" in r ==> r["schema"].Text? && r["schema"].text != ""
  {
    var base := map[
      "account" := Text(s.account),
      "user" := Text(s.user),
      "role" := Text(OrText(o.role, s.role)),
      "warehouse" := Text(OrText(o.warehouse, s.warehouse))];
    var withDatabase :=
      if Truthy(o.database) || Truthy(s.database) then base["database" := Text(Or(o.database, s.database).value)]
      else base;
    if Truthy(o.schema) || Truthy(s.schema) then withDatabase["schema" := Text(Or(o.schema, s.schema).value)]
    else withDatabase
  }

  /** `get_connection_params(role, warehouse, database, schema)`. */
  function ConnectionParams(s: Settings, o: Overrides, loadKey: KeyLoader): (r: Result<Params, AuthError>)
    // Failure: no credential at all, or the private key could not be loaded.
    ensures r == Err(NoAuthMethod) <==> !HasCredential(s)
    ensures r.Err? ==> r.error == NoAuthMethod || r.error.KeyLoadFailed?
    ensures r.Err? && r.error.KeyLoadFailed? ==>
      ChooseAuth(s).Some? && ChooseAuth(s).value.PrivateKey? && loadKey(KeySourceOf(s).value).Err?
    // Account and user are copied; role and warehouse take a non-empty override.
    ensures r.Ok? ==> {"account", "user", "role", "warehouse"} <= r.value.Keys
    ensures r.Ok? ==> r.value["account"] == Text(s.account) && r.value["user"] == Text(s.user)
    ensures r.Ok? ==> r.value["role"] == Text(if Truthy(o.role) then o.role.value else s.role)
    ensures r.Ok? ==> r.value["warehouse"] == Text(if Truthy(o.warehouse) then o.warehouse.value else s.warehouse)
    // Database and schema appear only when the override or the stored value is non-empty.
    ensures r.Ok? ==> ("database" in r.value <==> Truthy(o.database) || Truthy(s.database))
    ensures r.Ok? && Truthy(o.database) ==> r.value["database"] == Text(o.database.value)
    ensures r.Ok? && !Truthy(o.database) && Truthy(s.database) ==> r.value["database"] == Text(s.database.value)
    ensures r.Ok? ==> ("schema" in r.value <==> Truthy(o.schema) || Truthy(s.schema))
    ensures r.Ok? && Truthy(o.schema) ==> r.value["schema"] == Text(o.schema.value)
    ensures r.Ok? && !Truthy(o.schema) && Truthy(s.schema) ==> r.value["schema"] == Text(s.schema.value)
    // Exactly one credential, the one of highest priority.
    ensures r.Ok? ==> r.value.Keys <= PlainKeys + CredentialKeys
    ensures r.Ok? ==> ChooseAuth(s).Some? && r.value.Keys * CredentialKeys == {CredentialKey(ChooseAuth(s).value)}
    ensures r.Ok? && Truthy(s.authenticator) ==> r.value["authenticator"] == Text(s.authenticator.value)
    ensures r.Ok? && "private_key" in r.value ==>
      && KeySourceOf(s).Some? && loadKey(KeySourceOf(s).value).Ok?
      && r.value["private_key"] == KeyBytes(loadKey(KeySourceOf(s).value).value)
    ensures r.Ok? && "password" in r.value ==> Truthy(s.password) && r.value["password"] == Text(s.password.value)
  {
    var plain := PlainParams(s, o);
    match ChooseAuth(s)
    case None => Err(NoAuthMethod)
    case Some(Authenticator(name)) => Ok(plain["authenticator" := Text(name)])
    case Some(PrivateKey(_)) =>
      (match LoadPrivateKey(s, loadKey)
       case Err(e) => Err(e)
       case Ok(der) => Ok(plain["private_key" := KeyBytes(der)]))
    case Some(Password(p)) => Ok(plain["password" := Text(p)])
  }

  // ---------------------------------------------------------------------
  // Sessions and the session cache
  // ---------------------------------------------------------------------

  /** An opaque SDK session handle. */
  datatype Session = Session(id: nat)

  /** `Session.builder.configs(params).create()`; may fail. */
  type SessionFactory = Params -> Result<Session, string>

  /** `session.use_schema(schema)`; may fail. */
  type SchemaSwitch = (Session, string) -> Result<(), string>

  /** How `get_session` fails: an `AuthenticationError`, or the SDK's own
      exception from `use_schema` on a cached session, which escapes
      unwrapped. */
  datatype SessionError = Auth(cause: AuthError) | SchemaRejected(reason: string)

  /** The cache key `(final_role, final_warehouse, final_database)`. */
  datatype CacheKey = CacheKey(role: string, warehouse: string, database: Option<string>)

  /** A call the connection makes into the SDK. */
  datatype SdkCall =
    | Create(params: Params)
    | UseSchema(session: Session, schema: string)
    | SetQueryTag(session: Session, tag: Tag)
    | Close(session: Session)

  datatype SessionRequest = SessionRequest(overrides: Overrides, useCache: bool, queryTag: Option<Tag>)

  /** The outcome of one `get_session`: the result, the new cache, and the
      SDK calls made. */
  datatype SessionStep = SessionStep(
    result: Result<Session, SessionError>,
    cache: map<CacheKey, Session>,
    calls: seq<SdkCall>)

  /** The key a request resolves to: the role, warehouse and database its
      parameters are built with. The schema is not part of it. */
  function SessionKey(s: Settings, o: Overrides): (k: CacheKey)
    ensures var p := PlainParams(s, o);
      && p["role"] == Text(k.role) && p["warehouse"] == Text(k.warehouse)
      && ("database" in p <==> Truthy(k.database))
      && (Truthy(k.database) ==> p["database"] == Text(k.database.value))
  {
    CacheKey(OrText(o.role, s.role), OrText(o.warehouse, s.warehouse), Or(o.database, s.database))
  }

  /** The overrides `get_session` passes on to `get_connection_params`. */
  function Resolved(s: Settings, o: Overrides): Overrides {
    var key := SessionKey(s, o);
    Overrides(Some(key.role), Some(key.warehouse), key.database, o.schema)
  }

  /** Passing the already resolved values on changes no parameter. */
  lemma ResolvedParamsUnchanged(s: Settings, o: Overrides, loadKey: KeyLoader)
    ensures ConnectionParams(s, Resolved(s, o), loadKey) == ConnectionParams(s, o, loadKey)
  {
  }

  predicate NoCreate(calls: seq<SdkCall>) {
    forall i :: 0 <= i < |calls| ==> !calls[i].Create?
  }

  /** `get_session`. */
  function GetSessionStep(s: Settings, cache: map<CacheKey, Session>, req: SessionRequest,
                          loadKey: KeyLoader, create: SessionFactory, useSchema: SchemaSwitch): (step: SessionStep)
    // A cache hit checks no credential, creates nothing and leaves the cache alone.
    ensures var key := SessionKey(s, req.overrides);
      req.useCache && key in cache ==> step.cache == cache && NoCreate(step.calls)
    // On a hit, a non-empty schema override is first switched to on the stored session;
    // the stored handle is returned unless that switch fails, whose error escapes as is.
    ensures var key, schema := SessionKey(s, req.overrides), req.overrides.schema;
      req.useCache && key in cache ==>
        && (Truthy(schema) ==> |step.calls| > 0 && step.calls[0] == UseSchema(cache[key], schema.value))
        && (step.result.Ok? <==> !Truthy(schema) || useSchema(cache[key], schema.value).Ok?)
        && (step.result.Ok? ==> step.result.value == cache[key])
        && (step.result.Err? ==> step.result.error == SchemaRejected(useSchema(cache[key], schema.value).error)
                                 && |step.calls| == 1)
    // A miss stores the new handle under the key, and only when caching.
    ensures var key := SessionKey(s, req.overrides);
      req.useCache && key !in cache && step.result.Ok? ==> step.cache == cache[key := step.result.value]
    ensures !req.useCache ==> step.cache == cache
    ensures step.result.Err? ==> step.cache == cache
    // Every session handed out under caching is the one cached under its key.
    ensures var key := SessionKey(s, req.overrides);
      req.useCache && step.result.Ok? ==> key in step.cache && step.cache[key] == step.result.value
    // Without a hit, the result fails exactly as the parameters or the creation do.
    ensures var key := SessionKey(s, req.overrides);
      !(req.useCache && key in cache) ==>
        && (step.result.Err? ==> step.result.error.Auth?)
        && (step.result == Err(Auth(NoAuthMethod)) <==> !HasCredential(s))
        && (step.result.Ok? ==> ConnectionParams(s, req.overrides, loadKey).Ok? &&
                                create(ConnectionParams(s, req.overrides, loadKey).value) == Ok(step.result.value))
    // A miss whose parameters fail returns that error, wrapped, and calls nothing.
    ensures var key, p := SessionKey(s, req.overrides), ConnectionParams(s, req.overrides, loadKey);
      !(req.useCache && key in cache) && p.Err? ==> step.result == Err(Auth(p.error)) && step.calls == []
    // Otherwise it creates a session from the parameters and returns what creation gave,
    // a creation failure becoming an authentication error.
    ensures var key, p := SessionKey(s, req.overrides), ConnectionParams(s, req.overrides, loadKey);
      !(req.useCache && key in cache) && p.Ok? ==>
        && |step.calls| > 0 && step.calls[0] == Create(p.value)
        && (create(p.value).Err? ==> step.result == Err(Auth(SessionCreateFailed(create(p.value).error))))
        && (create(p.value).Ok? ==> step.result == Ok(create(p.value).value))
    // The session that is returned receives the effective query tag.
    ensures step.result.Ok? ==> SetQueryTag(step.result.value, EffectiveQueryTag(req.queryTag, s)) in step.calls
    // The exact SDK calls of a hit: the schema switch when asked for, then the
    // query tag when the switch did not fail.
    ensures var key, schema, tag := SessionKey(s, req.overrides), req.overrides.schema, EffectiveQueryTag(req.queryTag, s);
      req.useCache && key in cache ==>
        step.calls == (if Truthy(schema) then [UseSchema(cache[key], schema.value)] else [])
                      + (if step.result.Ok? then [SetQueryTag(cache[key], tag)] else [])
    // The exact SDK calls of a miss: one creation, then the query tag on the new
    // session when creation succeeded.
    ensures var key, p, tag := SessionKey(s, req.overrides), ConnectionParams(s, req.overrides, loadKey), EffectiveQueryTag(req.queryTag, s);
      !(req.useCache && key in cache) && p.Ok? ==>
        step.calls == [Create(p.value)] + (if step.result.Ok? then [SetQueryTag(step.result.value, tag)] else [])
  {
    var key := SessionKey(s, req.overrides);
    var tag := EffectiveQueryTag(req.queryTag, s);
    ResolvedParamsUnchanged(s, req.overrides, loadKey);
    if req.useCache && key in cache then
      var session := cache[key];
      var schema := req.overrides.schema;
      if Truthy(schema) then
        match useSchema(session, schema.value)
        case Err(msg) => SessionStep(Err(SchemaRejected(msg)), cache, [UseSchema(session, schema.value)])
        case Ok(_) => SessionStep(Ok(session), cache, [UseSchema(session, schema.value), SetQueryTag(session, tag)])
      else
        SessionStep(Ok(session), cache, [SetQueryTag(session, tag)])
    else
      match ConnectionParams(s, Resolved(s, req.overrides), loadKey)
      case Err(e) => SessionStep(Err(Auth(e)), cache, [])
      case Ok(params) =>
        match create(params)
        case Err(msg) => SessionStep(Err(Auth(SessionCreateFailed(msg))), cache, [Create(params)])
        case Ok(session) =>
          SessionStep(Ok(session), if req.useCache then cache[key := session] else cache,
                      [Create(params), SetQueryTag(session, tag)])
  }

  /** Two cached requests that resolve to the same (role, warehouse,
      database) get the same handle, whatever their schema or tag; the second
      creates nothing and can fail only by its schema switch. */
  lemma CachedSessionReused(s: Settings, cache: map<CacheKey, Session>, first: SessionRequest, second: SessionRequest,
                            loadKey: KeyLoader, create: SessionFactory, useSchema: SchemaSwitch,
                            loadKey2: KeyLoader, create2: SessionFactory, useSchema2: SchemaSwitch)
    requires first.useCache && second.useCache
    requires SessionKey(s, first.overrides) == SessionKey(s, second.overrides)
    requires GetSessionStep(s, cache, first, loadKey, create, useSchema).result.Ok?
    ensures var one := GetSessionStep(s, cache, first, loadKey, create, useSchema);
      var two := GetSessionStep(s, one.cache, second, loadKey2, create2, useSchema2);
      && two.cache == one.cache && NoCreate(two.calls)
      && (two.result.Ok? ==> two.result == one.result)
      && (two.result.Err? ==> two.result.error.SchemaRejected?)
  {
  }

  /** Without caching, the result and the SDK calls do not depend on the cache. */
  lemma UncachedIgnoresCache(s: Settings, c1: map<CacheKey, Session>, c2: map<CacheKey, Session>, req: SessionRequest,
                             loadKey: KeyLoader, create: SessionFactory, useSchema: SchemaSwitch)
    requires !req.useCache
    ensures GetSessionStep(s, c1, req, loadKey, create, useSchema).result ==
            GetSessionStep(s, c2, req, loadKey, create, useSchema).result
    ensures GetSessionStep(s, c1, req, loadKey, create, useSchema).calls ==
            GetSessionStep(s, c2, req, loadKey, create, useSchema).calls
  {
  }

  /** `calls` closes every entry of `cache` exactly once, in the order of
      `keys`, a duplicate-free listing of the cache's keys. */
  ghost predicate ClosesEach(cache: map<CacheKey, Session>, calls: seq<SdkCall>, keys: seq<CacheKey>) {
    && |keys| == |calls|
    && (forall k :: k in cache <==> k in keys)
    && (forall i, j :: 0 <= i < j < |keys| ==> keys[i] != keys[j])
    && (forall i :: 0 <= i < |calls| ==> keys[i] in cache && calls[i] == Close(cache[keys[i]]))
  }

  // ---------------------------------------------------------------------
  // The connection object
  // ---------------------------------------------------------------------

  class SnowflakeConnection {
    const settings: Settings
    var sessionCache: map<CacheKey, Session>

    constructor (settings: Settings)
      ensures this.settings == settings && sessionCache == map[]
    {
      this.settings := settings;
      sessionCache := map[];
    }

    /** `from_yaml`: `doc` is the parsed file, None when it does not exist. */
    static method FromYaml(doc: Option<Json>, env: map<string, string>) returns (r: Result<SnowflakeConnection, ConfigError>)
      ensures ConfigFromYaml(doc, env).Err? ==> r.Err? && r.error == ConfigFromYaml(doc, env).error
      ensures ConfigFromYaml(doc, env).Ok? ==>
        r.Ok? && fresh(r.value) && r.value.settings == ConfigFromYaml(doc, env).value && r.value.sessionCache == map[]
    {
      var section := YamlSection(doc);
      if section.Err? {
        return Err(section.error);
      }
      var config := ApplyEnvOverrides(section.value, env);
      var s := SettingsFromConfig(config);
      if s.Err? {
        return Err(s.error);
      }
      var connection := new SnowflakeConnection(s.value);
      return Ok(connection);
    }

    /** `get_connection_params`, building the dictionary entry by entry. */
    method GetConnectionParams(o: Overrides, loadKey: KeyLoader) returns (r: Result<Params, AuthError>)
      ensures r == ConnectionParams(settings, o, loadKey)
    {
      var params := map[
        "account" := Text(settings.account),
        "user" := Text(settings.user),
        "role" := Text(OrText(o.role, settings.role)),
        "warehouse" := Text(OrText(o.warehouse, settings.warehouse))];
      if Truthy(o.database) || Truthy(settings.database) {
        params := params["database" := Text(Or(o.database, settings.database).value)];
      }
      if Truthy(o.schema) || Truthy(settings.schema) {
        params := params["schema" := Text(Or(o.schema, settings.schema).value)];
      }
      if Truthy(settings.authenticator) {
        params := params["authenticator" := Text(settings.authenticator.value)];
      } else if Truthy(settings.privateKeyPem) || settings.privateKeyPath.Some? {
        var key := LoadPrivateKey(settings, loadKey);
        if key.Err? {
          return Err(key.error);
        }
        params := params["private_key" := KeyBytes(key.value)];
      } else if Truthy(settings.password) {
        params := params["password" := Text(settings.password.value)];
      } else {
        return Err(NoAuthMethod);
      }
      return Ok(params);
    }

    /** `get_session`: `calls` records what is asked of the SDK. */
    method GetSession(o: Overrides, useCache: bool, queryTag: Option<Tag>,
                      loadKey: KeyLoader, create: SessionFactory, useSchema: SchemaSwitch)
      returns (r: Result<Session, SessionError>, calls: seq<SdkCall>)
      modifies this
      ensures SessionStep(r, sessionCache, calls) ==
              GetSessionStep(settings, old(sessionCache), SessionRequest(o, useCache, queryTag), loadKey, create, useSchema)
    {
      var finalRole := OrText(o.role, settings.role);
      var finalWarehouse := OrText(o.warehouse, settings.warehouse);
      var finalDatabase := Or(o.database, settings.database);
      var tag := EffectiveQueryTag(queryTag, settings);
      var key := CacheKey(finalRole, finalWarehouse, finalDatabase);
      if useCache && key in sessionCache {
        var session := sessionCache[key];
        calls := [];
        if Truthy(o.schema) {
          calls := calls + [UseSchema(session, o.schema.value)];
          var switched := useSchema(session, o.schema.value);
          if switched.Err? {
            return Err(SchemaRejected(switched.error)), calls;
          }
        }
        calls := calls + [SetQueryTag(session, tag)];
        return Ok(session), calls;
      }
      var params := GetConnectionParams(Overrides(Some(finalRole), Some(finalWarehouse), finalDatabase, o.schema), loadKey);
      if params.Err? {
        return Err(Auth(params.error)), [];
      }
      calls := [Create(params.value)];
      var created := create(params.value);
      if created.Err? {
        return Err(Auth(SessionCreateFailed(created.error))), calls;
      }
      var session := created.value;
      calls := calls + [SetQueryTag(session, tag)];
      if useCache {
        sessionCache := sessionCache[key := session];
      }
      return Ok(session), calls;
    }

    /** `close_all_sessions`: one close attempt per cached entry (a failing
        close is swallowed), then the cache is cleared. */
    method CloseAllSessions() returns (calls: seq<SdkCall>, ghost keys: seq<CacheKey>)
      modifies this
      ensures ClosesEach(old(sessionCache), calls, keys)
      ensures sessionCache == map[]
    {
      var remaining := sessionCache.Keys;
      calls, keys := [], [];
      while remaining != {}
        invariant remaining <= sessionCache.Keys
        invariant |keys| == |calls|
        invariant forall k :: k in sessionCache ==> (k in remaining <==> k !in keys)
        invariant forall i :: 0 <= i < |keys| ==> keys[i] in sessionCache
        invariant forall i, j :: 0 <= i < j < |keys| ==> keys[i] != keys[j]
        invariant forall i :: 0 <= i < |calls| ==> calls[i] == Close(sessionCache[keys[i]])
        decreases remaining
      {
        var k :| k in remaining;
        calls := calls + [Close(sessionCache[k])];
        keys := keys + [k];
        remaining := remaining - {k};
      }
      sessionCache := map[];
    }

    /** `__exit__` of the context manager. */
    method Exit() returns (calls: seq<SdkCall>, ghost keys: seq<CacheKey>)
      modifies this
      ensures ClosesEach(old(sessionCache), calls, keys)
      ensures sessionCache == map[]
    {
      calls, keys := CloseAllSessions();
    }
  }
}
