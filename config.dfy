/**
 * The configuration manager: a table of settings loaded from a TOML file
 * (or built from defaults), read through environment-variable overrides,
 * and changed in place by `set`, `update` and `reset`.
 */
module Config {
  import opened Wrappers
  import opened Text

  /** A setting's value as TOML or Python hands it over. */
  datatype Value =
    | Null
    | Bool(b: bool)
    | Int(i: int)
    | Str(s: string)
    | List(items: seq<Value>)
    | Table(entries: map<string, Value>)

  /** Python truthiness. */
  predicate Truthy(v: Value) {
    match v
    case Null => false
    case Bool(b) => b
    case Int(i) => i != 0
    case Str(s) => s != ""
    case List(items) => items != []
    case Table(entries) => entries != map[]
  }

  /** The name Python gives the value's type in its error messages. */
  function TypeName(v: Value): string {
    match v
    case Null => "NoneType"
    case Bool(_) => "bool"
    case Int(_) => "int"
    case Str(_) => "str"
    case List(_) => "list"
    case Table(_) => "dict"
  }

  /** The environment variable that overrides `key`: `SCDL_` and the key in upper case. */
  function EnvKey(key: string): string {
    "SCDL_" + AsciiUpper(key)
  }

  /**
   * The defaults. `outputDir` stands for `str(Path.home() / 'Downloads' / 'scdl')`,
   * which depends on the user's home directory.
   */
  function DefaultConfig(outputDir: string): map<string, Value> {
    map[
      "output_dir" := Str(outputDir),
      "format" := Str("mp3"),
      "quality" := Str("best"),
      "client_id" := Str(""),
      "concurrent_downloads" := Int(3),
      "timeout" := Int(3600),
      "verbose" := Bool(false)
    ]
  }

  /** What reading the configuration file gives. */
  datatype ConfigFile =
    | Missing                              // the path does not exist
    | Unreadable                           // opening or parsing raised
    | Parsed(table: map<string, Value>)    // the TOML document's top-level table

  /** `_load_config`: the parsed table, or the defaults when there is none. */
  function LoadConfig(file: ConfigFile, outputDir: string): map<string, Value> {
    match file
    case Parsed(table) => table
    case _ => DefaultConfig(outputDir)
  }

  /** `dict.get(key, default)`. */
  function Lookup(data: map<string, Value>, key: string, default: Value): Value {
    if key in data then data[key] else default
  }

  /**
   * `get(key, default)` with the client-id fallback as it is evidently meant:
   * an environment variable wins, whatever is stored; an empty stored client
   * id gives way to the automatically obtained one (`autoId`, the result of
   * `ClientIDManager().auto_generate_client_id()`) when that is non-empty;
   * otherwise the stored value or the default.
   */
  function Resolve(env: map<string, string>, data: map<string, Value>, autoId: Option<string>,
                   key: string, default: Value): (v: Value)
    ensures EnvKey(key) in env ==> v == Str(env[EnvKey(key)])
    ensures EnvKey(key) !in env && (key != "client_id" || Truthy(Lookup(data, key, Null))) ==>
              v == Lookup(data, key, default)
    ensures EnvKey(key) !in env && key == "client_id" && !Truthy(Lookup(data, key, Null)) ==>
              v == (if autoId.Some? && autoId.value != "" then Str(autoId.value) else Lookup(data, key, default))
  {
    if EnvKey(key) in env then Str(env[EnvKey(key)])
    else if key == "client_id" && !Truthy(Lookup(data, key, Null)) && autoId.Some? && autoId.value != "" then
      Str(autoId.value)
    else Lookup(data, key, default)
  }

  /**
   * The message of the TypeError raised at manager.py:60, where
   * `ClientIDManager(self)` passes an argument its constructor does not take.
   */
  const ClientIdTypeError := "ClientIDManager.__init__() takes 1 positional argument but 2 were given"

  /** `get(key, default)` as written: the client-id fallback raises. */
  function ResolveAsWritten(env: map<string, string>, data: map<string, Value>,
                            key: string, default: Value): (r: Result<Value, string>)
    ensures r.Failure? <==> EnvKey(key) !in env && key == "client_id" && !Truthy(Lookup(data, key, Null))
    ensures r.Failure? ==> r.error == ClientIdTypeError
  {
    if EnvKey(key) in env then Success(Str(env[EnvKey(key)]))
    else if key == "client_id" && !Truthy(Lookup(data, key, Null)) then Failure(ClientIdTypeError)
    else Success(Lookup(data, key, default))
  }

  // ---------------------------------------------------------------------------
  // Properties

  /** Whenever the code as written returns a value, the corrected lookup returns the same one. */
  lemma AsWrittenAgrees(env: map<string, string>, data: map<string, Value>, autoId: Option<string>,
                        key: string, default: Value)
    requires ResolveAsWritten(env, data, key, default).Success?
    ensures ResolveAsWritten(env, data, key, default).value == Resolve(env, data, autoId, key, default)
  {
  }

  lemma UpperOfLower(c: char)
    ensures AsciiUpperChar(AsciiLowerChar(c)) == AsciiUpperChar(c)
  {
  }

  /** Keys that differ only in ASCII case read the same environment variable. */
  lemma EnvKeyIgnoresCase(key: string)
    ensures EnvKey(AsciiLower(key)) == EnvKey(key)
  {
    var lower := AsciiLower(key);
    forall i | 0 <= i < |key| ensures AsciiUpper(lower)[i] == AsciiUpper(key)[i] {
      UpperOfLower(key[i]);
    }
    assert AsciiUpper(lower) == AsciiUpper(key);
  }

  lemma ClientIdEnvKey()
    ensures EnvKey("client_id") == "SCDL_CLIENT_ID"
  {
    assert AsciiUpper("client_id") == "CLIENT_ID";
  }

  /**
   * With the default configuration and no `SCDL_CLIENT_ID` in the
   * environment, reading the client id as written always raises.
   */
  lemma DefaultClientIdFailsAsWritten(env: map<string, string>, outputDir: string, default: Value)
    requires "SCDL_CLIENT_ID" !in env
    ensures ResolveAsWritten(env, DefaultConfig(outputDir), "client_id", default) == Failure(ClientIdTypeError)
  {
    ClientIdEnvKey();
    assert Lookup(DefaultConfig(outputDir), "client_id", Null) == Str("");
  }

  /** After `data[key] = value`, reading `key` gives `value` unless the environment or the client-id fallback intervenes. */
  lemma ResolveAfterSet(env: map<string, string>, data: map<string, Value>, autoId: Option<string>,
                        key: string, value: Value, default: Value)
    requires EnvKey(key) !in env
    requires key != "client_id" || Truthy(value)
    ensures Resolve(env, data[key := value], autoId, key, default) == value
  {
  }

  /** Setting one key leaves every other key's reading unchanged. */
  lemma ResolveOtherAfterSet(env: map<string, string>, data: map<string, Value>, autoId: Option<string>,
                             key: string, value: Value, other: string, default: Value)
    requires other != key
    ensures Resolve(env, data[key := value], autoId, other, default) == Resolve(env, data, autoId, other, default)
  {
    assert Lookup(data[key := value], other, Null) == Lookup(data, other, Null);
    assert Lookup(data[key := value], other, default) == Lookup(data, other, default);
  }

  /** After `data.update(d)`, the keys of `d` read as `d` says and all other keys read as before. */
  lemma ResolveAfterUpdate(env: map<string, string>, data: map<string, Value>, autoId: Option<string>,
                           d: map<string, Value>, key: string, default: Value)
    ensures key in d && EnvKey(key) !in env && (key != "client_id" || Truthy(d[key])) ==>
              Resolve(env, data + d, autoId, key, default) == d[key]
    ensures key !in d ==> Resolve(env, data + d, autoId, key, default) == Resolve(env, data, autoId, key, default)
  {
    if key !in d {
      assert Lookup(data + d, key, Null) == Lookup(data, key, Null);
      assert Lookup(data + d, key, default) == Lookup(data, key, default);
    }
  }

  /** An environment override hides the stored table entirely. */
  lemma EnvOverridesData(env: map<string, string>, data1: map<string, Value>, data2: map<string, Value>,
                         autoId: Option<string>, key: string, default: Value)
    requires EnvKey(key) in env
    ensures Resolve(env, data1, autoId, key, default) == Resolve(env, data2, autoId, key, default)
  {
  }

  /** The defaults after `reset` read as documented when the environment does not interfere. */
  lemma DefaultsRead(env: map<string, string>, outputDir: string, autoId: Option<string>, default: Value)
    requires forall k :: k in DefaultConfig(outputDir) ==> EnvKey(k) !in env
    ensures Resolve(env, DefaultConfig(outputDir), autoId, "format", default) == Str("mp3")
    ensures Resolve(env, DefaultConfig(outputDir), autoId, "quality", default) == Str("best")
    ensures Resolve(env, DefaultConfig(outputDir), autoId, "output_dir", default) == Str(outputDir)
    ensures Resolve(env, DefaultConfig(outputDir), autoId, "concurrent_downloads", default) == Int(3)
    ensures Resolve(env, DefaultConfig(outputDir), autoId, "timeout", default) == Int(3600)
    ensures Resolve(env, DefaultConfig(outputDir), autoId, "verbose", default) == Bool(false)
    ensures Resolve(env, DefaultConfig(outputDir), autoId, "client_id", default) ==
              (if autoId.Some? && autoId.value != "" then Str(autoId.value) else Str(""))
  {
    var data := DefaultConfig(outputDir);
    assert "format" in data && "quality" in data && "output_dir" in data && "client_id" in data;
    assert "concurrent_downloads" in data && "timeout" in data && "verbose" in data;
  }

  /**
   * What a freshly loaded configuration reads, without environment overrides:
   * with no usable file, the documented defaults; with a parsed file, exactly
   * the file's entries, and a key the file lacks falls back to the caller's
   * default, not to the built-in one.
   */
  lemma LoadedReads(file: ConfigFile, env: map<string, string>, outputDir: string, autoId: Option<string>,
                    key: string, default: Value)
    requires forall k :: k in DefaultConfig(outputDir) ==> EnvKey(k) !in env
    requires EnvKey(key) !in env
    ensures !file.Parsed? ==> Resolve(env, LoadConfig(file, outputDir), autoId, "format", default) == Str("mp3")
    ensures !file.Parsed? ==> Resolve(env, LoadConfig(file, outputDir), autoId, "quality", default) == Str("best")
    ensures !file.Parsed? ==> Resolve(env, LoadConfig(file, outputDir), autoId, "output_dir", default) == Str(outputDir)
    ensures !file.Parsed? ==> Resolve(env, LoadConfig(file, outputDir), autoId, "timeout", default) == Int(3600)
    ensures file.Parsed? && key in file.table && (key != "client_id" || Truthy(file.table[key])) ==>
              Resolve(env, LoadConfig(file, outputDir), autoId, key, default) == file.table[key]
    ensures file.Parsed? && key !in file.table && key != "client_id" ==>
              Resolve(env, LoadConfig(file, outputDir), autoId, key, default) == default
  {
    if !file.Parsed? {
      DefaultsRead(env, outputDir, autoId, default);
    }
  }

  /**
   * `ConfigManager`: the current settings `data`, changed in place. The
   * environment, the default output directory and the automatically
   * obtained client id are fixed inputs of one manager.
   */
  class ConfigManager {
    var data: map<string, Value>
    const env: map<string, string>
    const defaultOutputDir: string
    const autoClientId: Option<string>

    /** `__init__`: the settings are what `_load_config` reads from the file. */
    constructor (file: ConfigFile, env: map<string, string>, defaultOutputDir: string, autoClientId: Option<string>)
      ensures data == LoadConfig(file, defaultOutputDir)
      ensures this.env == env && this.defaultOutputDir == defaultOutputDir && this.autoClientId == autoClientId
    {
      data := LoadConfig(file, defaultOutputDir);
      this.env := env;
      this.defaultOutputDir := defaultOutputDir;
      this.autoClientId := autoClientId;
    }

    /** `get(key, default)`, with the client-id fallback corrected. */
    function Get(key: string, default: Value): (v: Value)
      reads this
      ensures EnvKey(key) in env ==> v == Str(env[EnvKey(key)])
      ensures EnvKey(key) !in env && (key != "client_id" || Truthy(Lookup(data, key, Null))) ==>
                v == Lookup(data, key, default)
      ensures EnvKey(key) !in env && key == "client_id" && !Truthy(Lookup(data, key, Null)) ==>
                v == (if autoClientId.Some? && autoClientId.value != "" then Str(autoClientId.value)
                      else Lookup(data, key, default))
    {
      Resolve(env, data, autoClientId, key, default)
    }

    /** `get(key, default)` as written. */
    function GetAsWritten(key: string, default: Value): (r: Result<Value, string>)
      reads this
      ensures r.Failure? <==> EnvKey(key) !in env && key == "client_id" && !Truthy(Lookup(data, key, Null))
    {
      ResolveAsWritten(env, data, key, default)
    }

    /** `set(key, value)`: `key` now holds `value`; every other key keeps its value. */
    method Set(key: string, value: Value)
      modifies this
      ensures data.Keys == old(data).Keys + {key}
      ensures data[key] == value
      ensures forall k :: k in old(data) && k != key ==> data[k] == old(data)[k]
    {
      data := data[key := value];
    }

    /** `update(d)`: the keys of `d` now hold its values; every other key keeps its value. */
    method Update(d: map<string, Value>)
      modifies this
      ensures data.Keys == old(data).Keys + d.Keys
      ensures forall k :: k in d ==> data[k] == d[k]
      ensures forall k :: k in old(data) && k !in d ==> data[k] == old(data)[k]
    {
      data := data + d;
    }

    /** `reset()`: the settings are the defaults again. Writing them back to the file is not modelled. */
    method Reset()
      modifies this
      ensures data == DefaultConfig(defaultOutputDir)
    {
      data := DefaultConfig(defaultOutputDir);
    }
  }
}
