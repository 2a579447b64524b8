/**
 * `load_config` of `app/config.py`: `config.json` read from the working
 * directory, with `output` and `purge` filled in when absent.
 */
module Config {
  import opened Wrappers
  import opened Json
  import opened Utils

  const ConfigPath: Path := "config.json"

  /** `config[k] = config[k] if k in config else default`. */
  function Defaulted(config: Json, k: string, default: Json): Result<Json, Error>
  {
    var present :- Contains(config, Str(k));
    var value :- if present then GetItem(config, k) else Ok(default);
    SetItem(config, k, value)
  }

  /** On a dict the key is set to its own value or the default; anything else raises `TypeError`. */
  lemma DefaultedEffect(config: Json, k: string, default: Json)
    ensures config.Obj? ==>
      var value := if k in Keys(config.fields) then Lookup(config.fields, k).value else default;
      Defaulted(config, k, default) == Ok(Obj(Put(config.fields, k, value)))
    ensures !config.Obj? ==> Defaulted(config, k, default) == Err(TypeError)
  {
  }

  /**
   * `load_config()`: opening a missing file raises `FileNotFoundError`, a
   * directory `IsADirectoryError`, text that is not JSON a decode error;
   * anything but a dict fails on the first assignment.
   */
  function Loaded(d: Disk): Result<Json, Error>
  {
    if !Exists(d, ConfigPath) then Err(FileNotFoundError(ConfigPath))
    else
      var config :- Read(d, ConfigPath, Null);
      WithDefaults(config)
  }

  /** Lines 7-8: the two assignments on the loaded value. */
  function WithDefaults(config: Json): Result<Json, Error>
  {
    var config :- Defaulted(config, "output", Str("static"));
    Defaulted(config, "purge", Arr([]))
  }

  /**
   * The stored dict comes back with `output` and `purge` set: each keeps its
   * value when present and otherwise takes `"static"` and `[]`; every other
   * key keeps its value, existing keys keep their order and new ones go last.
   * A missing file and a stored value that is not a dict raise.
   */
  lemma LoadedDefaults(d: Disk)
    ensures !Exists(d, ConfigPath) ==> Loaded(d) == Err(FileNotFoundError(ConfigPath))
    ensures Exists(d, ConfigPath) && Read(d, ConfigPath, Null).Ok? && !Read(d, ConfigPath, Null).value.Obj?
        ==> Loaded(d) == Err(TypeError)
    ensures Loaded(d).Ok? <==> Exists(d, ConfigPath) && Read(d, ConfigPath, Null).Ok? && Read(d, ConfigPath, Null).value.Obj?
    ensures Loaded(d).Ok? ==>
      var stored, config := Read(d, ConfigPath, Null).value.fields, Loaded(d).value;
      && config.Obj?
      && GetItem(config, "output") == Ok(if "output" in Keys(stored) then Lookup(stored, "output").value else Str("static"))
      && GetItem(config, "purge") == Ok(if "purge" in Keys(stored) then Lookup(stored, "purge").value else Arr([]))
      && (forall k :: k != "output" && k != "purge" ==> Lookup(config.fields, k) == Lookup(stored, k))
      && Keys(stored) <= Keys(config.fields)
  {
    if Exists(d, ConfigPath) && Read(d, ConfigPath, Null).Ok? {
      var v := Read(d, ConfigPath, Null).value;
      DefaultedEffect(v, "output", Str("static"));
      if v.Obj? {
        var stored := v.fields;
        var o := if "output" in Keys(stored) then Lookup(stored, "output").value else Str("static");
        var fields1 := Put(stored, "output", o);
        PutKeys(stored, "output", o);
        DefaultedEffect(Obj(fields1), "purge", Arr([]));
        var p := if "purge" in Keys(fields1) then Lookup(fields1, "purge").value else Arr([]);
        PutKeys(fields1, "purge", p);
        assert WithDefaults(v) == Ok(Obj(Put(fields1, "purge", p)));
      }
    }
  }

  /** A dict without either key gains `output` and then `purge`, at the end. */
  lemma WithDefaultsAbsent(fields: seq<Field>)
    requires "output" !in Keys(fields) && "purge" !in Keys(fields)
    ensures WithDefaults(Obj(fields)) == Ok(Obj(fields + [Field("output", Str("static")), Field("purge", Arr([]))]))
  {
    DefaultedEffect(Obj(fields), "output", Str("static"));
    PutAbsent(fields, "output", Str("static"));
    var fields1 := fields + [Field("output", Str("static"))];
    PutKeys(fields, "output", Str("static"));
    DefaultedEffect(Obj(fields1), "purge", Arr([]));
    PutAbsent(fields1, "purge", Arr([]));
    assert fields1 + [Field("purge", Arr([]))] == fields + [Field("output", Str("static")), Field("purge", Arr([]))];
  }

  /** `load_config()` on the file system: the two assignments made in turn on the loaded dict. */
  method LoadConfig(fs: FileSystem) returns (r: Result<Json, Error>)
    ensures r == Loaded(fs.State())
  {
    if !Exists(fs.State(), ConfigPath) {
      return Err(FileNotFoundError(ConfigPath));
    }
    var loaded := Read(fs.State(), ConfigPath, Null);
    if loaded.Err? {
      return Err(loaded.error);
    }
    var config := loaded.value;
    var withOutput := Defaulted(config, "output", Str("static"));
    if withOutput.Err? {
      return Err(withOutput.error);
    }
    config := withOutput.value;
    r := Defaulted(config, "purge", Arr([]));
  }
}
