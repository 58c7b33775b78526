# customfunctions connection layer in Dafny

This project models the core of `customfunctions`. That package is a thin layer over the Snowflake Snowpark SDK. The model covers:

- **`SnowflakeConnection`** (`customfunctions/connection.py`):
  - how `from_yaml` merges the `snowflake:` section of a YAML file with nine fixed environment variables; the environment wins when a variable is non-empty;
  - how the stored settings and per-call overrides become connection parameters, including the single credential chosen by priority (authenticator, then private key, then password);
  - the session cache keyed by `(role, warehouse, database)`, which `get_session` updates in place and `close_all_sessions` empties;
  - the default query tag.
- **`print_hello`** (`customfunctions/common.py`): the greeting string.

Files:

- `results.dfy` (module `Results`): `Option` for Python's `None`, and `Result` for the exceptions raised.
- `common.dfy` (module `Common`): `PrintHello`.
- `connection.dfy` (module `Connection`) holds:
  - the data model: `Settings`, `Json` for parsed YAML and query tags, `Params`, `CacheKey`, and an opaque `Session` handle;
  - the pure resolution functions and the lemmas about them;
  - the class `SnowflakeConnection`. Its `settings` field never changes. Its `sessionCache` map is reassigned by `GetSession` and `CloseAllSessions`.

How the model treats the parts of the source that Dafny cannot run:

- Python truthiness is written out:
  - `Truthy(o)` means an optional string is neither `None` nor empty;
  - `Or`/`OrText` are Python's `a or b`, so `None` and `""` both fall back;
  - a query-tag dictionary is falsy when empty.
- `private_key_path` is a `pathlib.Path` in the source, and a `Path` is always truthy. So any path that is present selects the key file, even an empty one.
- SDK calls are foreign:
  - creating a session is a parameter `create: Params -> Result<Session, string>`;
  - switching a cached session's schema is a parameter `useSchema: (Session, string) -> Result<(), string>`;
  - reading and converting key material is a parameter `loadKey: KeySource -> Result<seq<byte>, string>`;
  - all three may fail. A failing `use_schema` escapes `get_session` unwrapped (`SchemaRejected`); the other two become `AuthenticationError`;
  - the calls made on sessions (`create`, `use_schema`, query-tag assignment, `close`) are returned as a trace of `SdkCall` values.
- File and environment I/O become inputs:
  - `doc: Option<Json>` is the parsed YAML document, `None` when the file does not exist;
  - `env: map<string, string>` is the process environment.

## Model

| member | source | states |
|---|---|---|
| `Common.PrintHello` | customfunctions/common.py:9-23 | the greeting is `"Hello "`, then the name unchanged, then `"!"`, with length `|name| + 7` |
| `Common.PrintHelloInjective` | customfunctions/common.py:23 | distinct names give distinct greetings |
| `Connection.DefaultQueryTag` | customfunctions/connection.py:47-61 | the default tag has exactly the keys origin/name/version/attributes; the name is the user; version is 1.0; the attributes are warehouse and role; `source` is the database when it is non-empty and `"DATASCIENCE"` otherwise, so it is never empty |
| `Connection.EffectiveQueryTag` | customfunctions/connection.py:63-66 | a session gets the per-call tag when that tag is a non-empty dictionary; otherwise the stored tag when there is one; otherwise the default tag |
| `Connection.EnvVarsDistinct` | customfunctions/connection.py:86-96 | the nine variable names are pairwise distinct, and so are the nine fields |
| `Connection.OverrideFirst` | customfunctions/connection.py:98-100 | after `n` iterations of the loop, every YAML key is still present and only table fields were added |
| `Connection.EnvOverride` | customfunctions/connection.py:98-100 | after the whole loop, the keys are the YAML keys plus exactly the fields whose variable is non-empty |
| `Connection.SetFieldsOf` | customfunctions/connection.py:98-99 | after `n` table entries, a field is in the overridden set exactly when its variable is non-empty; fields of later entries are not in it |
| `Connection.OverrideFirstKeys` | customfunctions/connection.py:98-100 | after `n` iterations, the keys are the YAML keys plus the fields whose variable is set |
| `Connection.OverrideFirstKeeps` | customfunctions/connection.py:98-100 | a YAML key that no set variable targets keeps its value through the loop |
| `Connection.OverrideFirstSets` | customfunctions/connection.py:98-100 | every set variable among the first `n` leaves its value in its field; later entries never overwrite it |
| `Connection.EnvOverrideWins` | customfunctions/connection.py:86-100 | each of the nine variables with a non-empty value replaces its YAML field |
| `Connection.EnvOverrideKeeps` | customfunctions/connection.py:98-100 | a field whose variable is unset or empty, and any key outside the table, keeps its YAML value or stays absent |
| `Connection.EnvOverrideKeys` | customfunctions/connection.py:86-100 | the environment adds no key outside the table of nine fields |
| `Connection.ApplyEnvOverrides` | customfunctions/connection.py:98-100 | the loop's result is the merged map `EnvOverride(config, env)` |
| `Connection.YamlSection` | customfunctions/connection.py:78-83 | a missing file gives `{}`; a mapping document gives its `snowflake` mapping, or `{}` when that key is absent; a non-mapping document or section is an error |
| `Connection.RequiredText` | customfunctions/connection.py:34-35 | a required `str` field succeeds exactly when it is present as a string; otherwise the error is missing or wrong type |
| `Connection.TextOrDefault` | customfunctions/connection.py:40-41 | an absent `role`/`warehouse` takes its default; a present one must be a string |
| `Connection.OptionalText` | customfunctions/connection.py:36-43 | an absent or null optional field is `None`; a string is kept; any other value is a type error |
| `Connection.OptionalTag` | customfunctions/connection.py:44 | an absent or null query tag is `None`; a mapping is kept; anything else is a type error for `query_tag` |
| `Connection.SettingsFromConfig` | customfunctions/connection.py:102 | construction succeeds exactly when all eleven fields validate and fails without an account; on success account and user come from the map, role and warehouse from the map or the defaults `DATASCIENTIST`/`DS_WH_XS`, and password, key path, PEM, authenticator, database, schema and query tag are what their validators produced |
| `Connection.ConfigFromYaml` | customfunctions/connection.py:78-102 | a bad document or section is the error; a good section yields exactly what `SettingsFromConfig` gives for the section with the environment merged in (`EnvOverride`), so it succeeds exactly when that merged map validates; on success every mapped variable with a non-empty value is the value of its settings field, and every other mapped field keeps its YAML string |
| `Connection.FromYamlRoleAndWarehouse` | customfunctions/connection.py:76-102 | for role and warehouse, a non-empty environment variable beats the YAML value, which beats the class default |
| `Connection.FromYamlAccount` | customfunctions/connection.py:76-102 | with no account in the YAML and none in the environment, `from_yaml` fails; an account from the environment wins |
| `Connection.FromYamlUser` | customfunctions/connection.py:76-102 | with an account available but no user in the YAML and none in the environment, `from_yaml` fails with the missing user; a user from the environment wins |
| `Connection.KeySourceOf` | customfunctions/connection.py:107-113 | there is a key source exactly when the PEM text is non-empty or a path is present; it is the PEM text exactly when that is non-empty, else the path |
| `Connection.LoadPrivateKey` | customfunctions/connection.py:104-126 | PEM text is preferred over the key file; with neither, or when loading fails, the result is an authentication error, carrying the loader's reason when loading fails |
| `Connection.ChooseAuth` | customfunctions/connection.py:147-157 | each credential is chosen exactly when it is configured and no higher-priority one is (authenticator, then private key, then password); there is none exactly when nothing is configured |
| `Connection.PlainParams` | customfunctions/connection.py:136-146 | the parameters before the credential are account, user, role, warehouse, plus `database`/`schema` exactly when the override or stored value is non-empty, always with a non-empty value; no credential key is among them |
| `Connection.ConnectionParams` | customfunctions/connection.py:128-159 | `NoAuthMethod` is returned exactly when no credential is configured; other failures are key-load errors; role and warehouse take a non-empty override; `database`/`schema` appear exactly when the override or the stored value is non-empty; exactly one credential key appears, the highest-priority one |
| `Connection.ResolvedParamsUnchanged` | customfunctions/connection.py:184-199 | passing the resolved role/warehouse/database on to `get_connection_params` gives the same parameters as the raw overrides |
| `Connection.SessionKey` | customfunctions/connection.py:184-189 | the cache key's role, warehouse and database are exactly those the connection parameters are built with; the schema is not part of it |
| `Connection.GetSessionStep` | customfunctions/connection.py:161-215 | a cache hit creates nothing, checks no credential and leaves the cache unchanged; it first issues `use_schema` when the schema override is non-empty, and returns the stored handle unless that call fails, whose error escapes unwrapped with no query tag set; a miss whose parameters fail returns that error as an authentication error and calls nothing; otherwise it first issues `Create` with the parameters, returns the created session when creation succeeds, and `SessionCreateFailed` with the SDK's reason when it fails; a successful miss under caching stores the handle under the key; without caching, or on any failure, the cache is unchanged; a miss fails only with an authentication error; the returned session receives the effective query tag; the SDK calls are exactly: on a hit, `use_schema` when the schema override is non-empty, then the query tag unless that failed; on a miss with valid parameters, one `create`, then the query tag on the new session only when creation succeeded |
| `Connection.CachedSessionReused` | customfunctions/connection.py:184-196 | two cached requests with the same (role, warehouse, database) get the same handle, and the second creates nothing; it can fail only by its schema switch |
| `Connection.UncachedIgnoresCache` | customfunctions/connection.py:188-215 | with `use_cache` false, the result and SDK calls do not depend on the cache contents |
| `Connection.SnowflakeConnection.constructor` | customfunctions/connection.py:29-45 | a new connection holds the given settings and an empty cache |
| `Connection.SnowflakeConnection.FromYaml` | customfunctions/connection.py:75-102 | returns a fresh connection with the merged settings and an empty cache, or the configuration error |
| `Connection.SnowflakeConnection.GetConnectionParams` | customfunctions/connection.py:128-159 | the dictionary built entry by entry equals `ConnectionParams` |
| `Connection.SnowflakeConnection.GetSession` | customfunctions/connection.py:161-215 | the result, the new cache and the SDK calls are those of `GetSessionStep` on the old cache |
| `Connection.SnowflakeConnection.CloseAllSessions` | customfunctions/connection.py:217-224 | every cached entry gets exactly one close attempt, and the cache is empty afterwards whatever the close attempts did |
| `Connection.SnowflakeConnection.Exit` | customfunctions/connection.py:229-230 | leaving the context manager closes every cached session once and empties the cache |

## Left out

- Logging (`logger.info`/`warning`) and the pydantic `warnings` filter: they have no effect on results.
- The PEM parsing and DER/PKCS8 conversion in `_load_private_key` are foreign library calls. They are inside the `loadKey` parameter, together with reading the key file.
- Snowpark calls are foreign: session creation, `use_schema`, query-tag assignment and `close`. Creation and `use_schema` are the `create` and `useSchema` parameters. All four are recorded in the returned `SdkCall` trace. A failure in query-tag assignment or `close` is swallowed by the source, so it is not represented.
- `os.path.isfile`, `open`, `yaml.safe_load` and `os.getenv` are I/O. Their results are the `doc` and `env` inputs.
- Pydantic validation is modelled only as presence and type checks on each field, reporting the first failing field. Pydantic reports all of them and may coerce some values. The `ensure_path_object` validator's conversion to `Path` and YAML floats are not modelled.
- `Connection.SnowflakeConnection.CloseAllSessions`: closes in an unspecified order. The source closes in dictionary insertion order, which a Dafny `map` does not keep.
- Error messages are kept as the underlying reason string in `KeyLoadFailed`/`SessionCreateFailed`. The fixed prefixes of the source's messages are not reproduced.
- Session creation is a function of the parameters, so the model returns the same handle for two uncached creations with equal parameters. The source creates a new `Session` object each time. No proved property depends on handles being distinct.
- `__enter__` only returns `self`, so it is not modelled.
- `_session_cache` is a field of each connection object. Sharing across instances and thread safety are not modelled; the source has no locking.
- `find_config_file`, `get_config_path`, `load_config` and `is_snowflake_environment` (listed for `customfunctions/common.py` in the package's symbol index) and `hello_procedure` (`customfunctions/procedures.py`): the version of `common.py` modelled here defines only `print_hello`, and `procedures.py` is not part of this model.
