/** Application configuration in src/talkat/config.py: the code defaults, loading a user file
    over them and saving a configuration. The file system is a parameter: which paths are
    present, and what reading a path yields. */
module Config {
  import opened Wrappers
  import Json
  import Security
  import Paths
  import Text

  type Config = Security.Config

  /** `CODE_DEFAULTS`; the path values come from the directory layout. The map is a value, so
      a load starts from a fresh copy and never changes it. The keys the validator checks are
      split off. */
  function CodeDefaults(d: Paths.Dirs): Config
  {
    map[
      "silence_duration" := Json.Real(3.0),
      "pre_speech_padding" := Json.Real(0.3),
      "silence_threshold_fallback" := Json.Real(500.0),
      "silence_threshold_min" := Json.Real(50.0),
      "silence_threshold_max" := Json.Real(5000.0),
      "max_recording_duration" := Json.Real(30.0),
      "long_mode_max_duration" := Json.Real(600.0),
      "server_host" := Json.Str("127.0.0.1"),
      "server_port" := Json.Int(5555),
      "server_url" := Json.Str("http://127.0.0.1:5555"),
      "http_timeout" := Json.Int(120),
      "health_check_timeout" := Json.Int(2),
      "file_processing_timeout_base" := Json.Int(30),
      "process_stop_timeout" := Json.Real(5.0),
      "lock_acquire_timeout" := Json.Real(1.0),
      "lock_retry_interval" := Json.Real(0.01),
      "process_check_interval" := Json.Real(0.1),
      "background_process_delay" := Json.Real(0.5),
      "faster_whisper_model_cache_dir" := Json.Str(Paths.FasterWhisperCacheDir(d)),
      "vosk_model_base_dir" := Json.Str(Paths.VoskCacheDir(d)),
      "distil_model_name" := Json.Str("distil-whisper/distil-medium.en"),
      "dictionary_file" := Json.Str(Paths.DictionaryFile(d))] + CheckedDefaults(d)
  }

  /** The defaults under the keys the validator checks. */
  function CheckedDefaults(d: Paths.Dirs): Config
  {
    map[
      "model_name" := Json.Str("base.en"),
      "transcript_dir" := Json.Str(Paths.TranscriptDir(d)),
      "model_cache_dir" := Json.Str(Paths.ModelCacheDir(d)),
      "silence_threshold" := Json.Real(200.0),
      "fw_device_index" := Json.Int(0),
      "clipboard_on_long" := Json.Bool(true),
      "save_transcripts" := Json.Bool(true),
      "model_type" := Json.Str("faster-whisper"),
      "fw_device" := Json.Str("cpu"),
      "fw_compute_type" := Json.Str("int8"),
      "device" := Json.Str("cpu")]
  }

  lemma BaseEnValid()
    ensures Security.ValidateModelName("base.en") == Ok("base.en")
  {
    var s := "base.en";
    Security.ModelNameAccepted(s);
    assert Security.AllNameChars(s);
    Security.NoDoubleDot(s);
  }

  /** The shipped defaults pass the validator themselves, as long as the directory layout
      holds no parent step. */
  lemma DefaultsAcceptable(d: Paths.Dirs)
    requires !Security.Traversal(Paths.TranscriptDir(d)) && !Security.Traversal(Paths.ModelCacheDir(d))
    ensures Security.Acceptable(CodeDefaults(d))
  {
    var c := CodeDefaults(d);
    var checked := CheckedDefaults(d);
    CheckedHold(d);
    assert forall k | k in checked :: k in c && c[k] == checked[k];
    BaseEnValid();
    ValuesAcceptable(c);
    AcceptableFrom(c, Paths.TranscriptDir(d), Paths.ModelCacheDir(d));
  }

  lemma CheckedHold(d: Paths.Dirs)
    ensures var c := CheckedDefaults(d);
      Holds(c, "model_name", Json.Str("base.en")) &&
      Holds(c, "transcript_dir", Json.Str(Paths.TranscriptDir(d))) &&
      Holds(c, "model_cache_dir", Json.Str(Paths.ModelCacheDir(d))) &&
      Holds(c, "silence_threshold", Json.Real(200.0)) && Holds(c, "fw_device_index", Json.Int(0)) &&
      Holds(c, "clipboard_on_long", Json.Bool(true)) && Holds(c, "save_transcripts", Json.Bool(true)) &&
      Holds(c, "model_type", Json.Str("faster-whisper")) && Holds(c, "fw_device", Json.Str("cpu")) &&
      Holds(c, "fw_compute_type", Json.Str("int8")) && Holds(c, "device", Json.Str("cpu"))
  {
  }

  /** The defaults under the checked keys, read through the whole map. */
  lemma DefaultsHold(d: Paths.Dirs)
    ensures var c := CodeDefaults(d);
      Holds(c, "model_name", Json.Str("base.en")) && Holds(c, "model_type", Json.Str("faster-whisper")) &&
      Security.ChoiceOk(c, "model_type") && Security.ChoiceOk(c, "fw_device") &&
      Security.ChoiceOk(c, "fw_compute_type") && Security.ChoiceOk(c, "device")
  {
    var c := CodeDefaults(d);
    var checked := CheckedDefaults(d);
    CheckedHold(d);
    assert forall k | k in checked :: k in c && c[k] == checked[k];
  }

  lemma AcceptableFrom(c: Config, transcripts: string, models: string)
    requires Holds(c, "model_name", Json.Str("base.en")) && Security.ValidateModelName("base.en").Ok?
    requires Holds(c, "transcript_dir", Json.Str(transcripts)) && !Security.Traversal(transcripts)
    requires Holds(c, "model_cache_dir", Json.Str(models)) && !Security.Traversal(models)
    requires Security.ValuesOk(c)
    ensures Security.Acceptable(c)
  {
  }

  predicate Holds(c: Config, key: string, v: Json.Value)
  {
    key in c && c[key] == v
  }

  /** The value checks, from the values that the defaults hold under the checked keys. */
  lemma ValuesAcceptable(c: Config)
    requires Holds(c, "silence_threshold", Json.Real(200.0)) && Holds(c, "fw_device_index", Json.Int(0))
    requires Holds(c, "clipboard_on_long", Json.Bool(true)) && Holds(c, "save_transcripts", Json.Bool(true))
    requires Holds(c, "model_type", Json.Str("faster-whisper")) && Holds(c, "fw_device", Json.Str("cpu"))
    requires Holds(c, "fw_compute_type", Json.Str("int8")) && Holds(c, "device", Json.Str("cpu"))
    ensures Security.ValuesOk(c)
  {
  }

  /** What opening and decoding a present file yields. */
  datatype FileRead = Unopenable | NotJson | Parsed(v: Json.Value)

  /** The errors `load_app_config` lets escape: an OSError from `open` (only decoding,
      ValueError and TypeError are caught), and the validator's SecurityError. */
  datatype LoadFailure = OSError | Rejected

  /** `load_app_config`: the defaults, overlaid with the validated file when the chosen file is
      present, decodes to an object and passes the validator; a caught error keeps the
      defaults. */
  function LoadAppConfig(d: Paths.Dirs, present: string -> bool, read: string -> FileRead,
                         resolve: string -> string): Result<Config, LoadFailure>
  {
    LoadFile(CodeDefaults(d), Paths.GetConfigFile(d, present), present, read, resolve)
  }

  /** The body of `load_app_config` once the defaults are copied and the file chosen. A
      list that the validator lets through is merged by `config.update`, pair by pair, and
      what was merged before a malformed element stays, since the error is caught after the
      partial update. Any other value that is not an object fails inside the validator or
      inside `update` before anything is stored. */
  function LoadFile(defaults: Config, file: string, present: string -> bool, read: string -> FileRead,
                    resolve: string -> string): Result<Config, LoadFailure>
  {
    if !present(file) then Ok(defaults)
    else match read(file)
      case Unopenable => Err(OSError)
      case NotJson => Ok(defaults)
      case Parsed(v) =>
        if v.List? then
          if Security.ValidateJsonList(v.items).Err? then Ok(defaults) else Ok(MergePairs(defaults, v.items))
        else if !v.Object? then Ok(defaults)
        else match Security.ValidateJsonConfig(v.fields, resolve)
          case Ok(fc) => Ok(defaults + fc)
          case Err(e) => if e == Security.SecurityError then Err(Rejected) else Ok(defaults)
  }

  /** The chosen file decodes to a JSON list. */
  predicate HoldsList(file: string, present: string -> bool, read: string -> FileRead)
  {
    present(file) && read(file).Parsed? && read(file).v.List?
  }

  /** How `dict.update` reads one element of a list: a key and a value, or an element that
      makes it raise. */
  datatype Entry = Pair(key: Json.Value, value: Json.Value) | Malformed

  /** A value that can be a dict key: lists and dicts are unhashable. */
  predicate Hashable(v: Json.Value)
  {
    !v.List? && !v.Object?
  }

  /** One element of the sequence given to `update`: a two-item list with a hashable first
      item, or a two-character string read as two one-character strings. Every other element
      raises TypeError or ValueError. */
  function AsPair(e: Json.Value): (r: Entry)
    ensures r.Pair? ==> Hashable(r.key)
    ensures r.Pair? <==> (e.List? && |e.items| == 2 && Hashable(e.items[0])) || (e.Str? && |e.s| == 2)
  {
    match e
    case List(xs) => if |xs| == 2 && Hashable(xs[0]) then Pair(xs[0], xs[1]) else Malformed
    case Str(s) => if |s| == 2 then Pair(Json.Str([s[0]]), Json.Str([s[1]])) else Malformed
    case _ => Malformed
  }

  predicate AllPairs(items: seq<Json.Value>)
  {
    forall i | 0 <= i < |items| :: AsPair(items[i]).Pair?
  }

  /** `config.update(items)` on a list of pairs, up to the first malformed element. A pair
      whose key is not a string has no place in a `Config` and is skipped. */
  function MergePairs(config: Config, items: seq<Json.Value>): (r: Config)
    ensures config.Keys <= r.Keys
    decreases |items|
  {
    if items == [] then config
    else match AsPair(items[0])
      case Malformed => config
      case Pair(k, v) => MergePairs(if k.Str? then config[k.s := v] else config, items[1..])
  }

  /** The pairs are stored in order: the last pair with a key decides its value. */
  lemma {:induction false} MergeSnoc(config: Config, items: seq<Json.Value>, e: Json.Value)
    requires AllPairs(items) && AsPair(e).Pair?
    ensures var p := AsPair(e); var before := MergePairs(config, items);
      MergePairs(config, items + [e]) == if p.key.Str? then before[p.key.s := p.value] else before
    decreases |items|
  {
    if items == [] {
      assert [e][1..] == [];
    } else {
      var p0 := AsPair(items[0]);
      var c1 := if p0.key.Str? then config[p0.key.s := p0.value] else config;
      assert (items + [e])[0] == items[0] && (items + [e])[1..] == items[1..] + [e];
      MergeSnoc(c1, items[1..], e);
    }
  }

  /** A malformed element ends the merge: nothing after it is stored, and what came before
      it is kept. */
  lemma {:induction false} MergeStopsAt(config: Config, items: seq<Json.Value>, i: nat)
    requires i < |items| && AsPair(items[i]).Malformed?
    ensures MergePairs(config, items) == MergePairs(config, items[..i])
    decreases i
  {
    if i > 0 && AsPair(items[0]).Pair? {
      var p0 := AsPair(items[0]);
      var c1 := if p0.key.Str? then config[p0.key.s := p0.value] else config;
      assert items[..i][0] == items[0] && items[..i][1..] == items[1..][..i - 1];
      MergeStopsAt(c1, items[1..], i - 1);
    } else if i > 0 {
      assert items[..i][0] == items[0];
    }
  }

  /** The loader as written takes a list of pairs over the defaults with none of the
      validator's checks: a `model_type` outside the three backends and a `transcript_dir`
      that climbs out of its directory both load. */
  lemma ListFileLoadsUnchecked(defaults: Config, file: string, present: string -> bool, read: string -> FileRead,
                               resolve: string -> string)
    requires present(file)
    requires read(file) == Parsed(Json.List([Json.List([Json.Str("model_type"), Json.Str("bogus")]),
                                             Json.List([Json.Str("transcript_dir"), Json.Str("../../x")])]))
    ensures var r := LoadFile(defaults, file, present, read, resolve);
      r.Ok? && r.value["model_type"] == Json.Str("bogus") && !Security.ChoiceOk(r.value, "model_type") &&
      r.value["transcript_dir"] == Json.Str("../../x") && Security.Traversal(r.value["transcript_dir"].s)
  {
    var a := Json.List([Json.Str("model_type"), Json.Str("bogus")]);
    var b := Json.List([Json.Str("transcript_dir"), Json.Str("../../x")]);
    var items := [a, b];
    assert Security.ValidateJsonList(items).Ok?;
    MergeSnoc(defaults, [a], b);
    MergeSnoc(defaults, [], a);
    assert [a] + [b] == items && [] + [a] == [a];
    assert Text.OccursAt("../../x", "../", 0);
  }

  /** `load_app_config` with a validator that rejects anything but a dict, as its signature
      says it expects: a list then loads as the defaults, like every other non-object. */
  function LoadFileChecked(defaults: Config, file: string, present: string -> bool, read: string -> FileRead,
                           resolve: string -> string): Result<Config, LoadFailure>
  {
    if HoldsList(file, present, read) then Ok(defaults) else LoadFile(defaults, file, present, read, resolve)
  }

  /** For the checked loader every non-object file is the defaults, and loading over
      choice-valid defaults keeps every choice valid, whatever the file holds. */
  lemma LoadFileCheckedChoices(defaults: Config, file: string, present: string -> bool, read: string -> FileRead,
                               resolve: string -> string)
    requires LoadFileChecked(defaults, file, present, read, resolve).Ok?
    requires Security.ChoiceOk(defaults, "model_type") && Security.ChoiceOk(defaults, "fw_device")
    requires Security.ChoiceOk(defaults, "fw_compute_type") && Security.ChoiceOk(defaults, "device")
    ensures present(file) && read(file).Parsed? && !read(file).v.Object? ==>
      LoadFileChecked(defaults, file, present, read, resolve) == Ok(defaults)
    ensures var c := LoadFileChecked(defaults, file, present, read, resolve).value;
      Security.ChoiceOk(c, "model_type") && Security.ChoiceOk(c, "fw_device") &&
      Security.ChoiceOk(c, "fw_compute_type") && Security.ChoiceOk(c, "device")
  {
    if !HoldsList(file, present, read) {
      LoadFileChoices(defaults, file, present, read, resolve);
    }
  }

  /** The load of one file, case by case: a file that passes the validator wins key by key
      over the defaults, with its paths resolved; every other outcome is the defaults, except
      an unopenable file and a parent step in a path, which escape as errors. */
  lemma LoadFileSpec(defaults: Config, file: string, present: string -> bool, read: string -> FileRead,
                     resolve: string -> string)
    ensures var r := LoadFile(defaults, file, present, read, resolve);
      (!present(file) ==> r == Ok(defaults)) &&
      (r == Err(OSError) <==> present(file) && read(file).Unopenable?) &&
      (r == Err(Rejected) ==> (present(file) && read(file).Parsed? && read(file).v.Object? &&
        exists k | k in Security.PATH_KEYS :: k in read(file).v.fields && read(file).v.fields[k].Str? &&
          Security.Traversal(read(file).v.fields[k].s))) &&
      (present(file) && (read(file).NotJson? || (read(file).Parsed? && !read(file).v.Object? && !read(file).v.List?)) ==>
        r == Ok(defaults)) &&
      (HoldsList(file, present, read) ==>
        var items := read(file).v.items;
        (Security.ValidateJsonList(items).Err? <==>
          exists i | 0 <= i < |items| :: items[i].Str? && Security.CheckedKey(items[i].s)) &&
        r == Ok(if Security.ValidateJsonList(items).Err? then defaults else MergePairs(defaults, items)))
    ensures var r := LoadFile(defaults, file, present, read, resolve);
      present(file) && read(file).Parsed? && read(file).v.Object? && Security.Acceptable(read(file).v.fields) ==>
        var fc := read(file).v.fields;
        r.Ok? && r.value.Keys == defaults.Keys + fc.Keys &&
        (forall k | k in fc && k !in Security.PATH_KEYS :: r.value[k] == fc[k]) &&
        (forall k | k in fc && k in Security.PATH_KEYS :: r.value[k] == Json.Str(resolve(fc[k].s))) &&
        (forall k | k in defaults && k !in fc :: r.value[k] == defaults[k])
  {
    if present(file) && read(file).Parsed? && read(file).v.Object? {
      Security.ValidateJsonConfigSpec(read(file).v.fields, resolve);
    }
  }

  /** The load from the directory layout: with neither the user file nor the system file
      present the result is the defaults; otherwise the chosen file is loaded as
      `LoadFileSpec` states, and an unopenable chosen file is the only OSError. */
  lemma LoadAppConfigSpec(d: Paths.Dirs, present: string -> bool, read: string -> FileRead,
                          resolve: string -> string)
    ensures !present(Paths.ConfigFile(d)) && !present(Paths.SYSTEM_CONFIG_FILE) ==>
      LoadAppConfig(d, present, read, resolve) == Ok(CodeDefaults(d))
    ensures present(Paths.ConfigFile(d)) ==>
      LoadAppConfig(d, present, read, resolve) == LoadFile(CodeDefaults(d), Paths.ConfigFile(d), present, read, resolve)
    ensures !present(Paths.ConfigFile(d)) && present(Paths.SYSTEM_CONFIG_FILE) ==>
      LoadAppConfig(d, present, read, resolve) == LoadFile(CodeDefaults(d), Paths.SYSTEM_CONFIG_FILE, present, read, resolve)
    ensures LoadAppConfig(d, present, read, resolve) == Err(OSError) <==>
      var file := Paths.GetConfigFile(d, present); present(file) && read(file).Unopenable?
  {
    LoadFileSpec(CodeDefaults(d), Paths.GetConfigFile(d, present), present, read, resolve);
  }

  /** What `save_app_config` can end in: the configuration written, an OSError that is
      logged, or a validator error that escapes. */
  datatype SaveOutcome = Written(saved: Config) | WriteFailed | Invalid(error: Security.Failure)

  /** `save_app_config`: the validated configuration is what reaches the file; `writeFails`
      stands for an OSError on opening or writing it. */
  function SaveAppConfig(config: Config, resolve: string -> string, writeFails: bool): (r: SaveOutcome)
    ensures r.Invalid? <==> !Security.Acceptable(config)
  {
    Security.ValidateJsonConfigSpec(config, resolve);
    match Security.ValidateJsonConfig(config, resolve)
    case Err(e) => Invalid(e)
    case Ok(c) => if writeFails then WriteFailed else Written(c)
  }

  /** A resolver whose results are fixed points and free of parent steps, as an absolute,
      normalised path is. */
  ghost predicate CanonicalResolver(resolve: string -> string)
  {
    forall p :: resolve(resolve(p)) == resolve(p) && !Security.Traversal(resolve(p))
  }

  /** Saving then loading: when the saved file is the one that is read back, the loaded
      configuration is the defaults overlaid with exactly what was saved. */
  lemma SaveThenLoad(config: Config, d: Paths.Dirs, present: string -> bool, read: string -> FileRead,
                     resolve: string -> string)
    requires CanonicalResolver(resolve)
    requires SaveAppConfig(config, resolve, false).Written?
    requires present(Paths.ConfigFile(d))
    requires read(Paths.ConfigFile(d)) == Parsed(Json.Object(SaveAppConfig(config, resolve, false).saved))
    ensures LoadAppConfig(d, present, read, resolve) == Ok(CodeDefaults(d) + SaveAppConfig(config, resolve, false).saved)
  {
    var saved := SaveAppConfig(config, resolve, false).saved;
    SavedRevalidates(config, resolve);
    LoadsValidatedFile(d, present, read, resolve, saved, saved);
  }

  /** A present user file holding an object the validator accepts loads as the defaults
      overlaid with the validated object. */
  lemma LoadsValidatedFile(d: Paths.Dirs, present: string -> bool, read: string -> FileRead,
                           resolve: string -> string, fields: Config, validated: Config)
    requires present(Paths.ConfigFile(d))
    requires read(Paths.ConfigFile(d)) == Parsed(Json.Object(fields))
    requires Security.ValidateJsonConfig(fields, resolve) == Ok(validated)
    ensures LoadAppConfig(d, present, read, resolve) == Ok(CodeDefaults(d) + validated)
  {
    LoadFileAccepts(CodeDefaults(d), Paths.ConfigFile(d), present, read, resolve, fields, validated);
  }

  lemma LoadFileAccepts(defaults: Config, file: string, present: string -> bool, read: string -> FileRead,
                        resolve: string -> string, fields: Config, validated: Config)
    requires present(file) && read(file) == Parsed(Json.Object(fields))
    requires Security.ValidateJsonConfig(fields, resolve) == Ok(validated)
    ensures LoadFile(defaults, file, present, read, resolve) == Ok(defaults + validated)
  {
  }

  /** What a save writes passes the validator again unchanged, when the resolver is
      canonical. */
  lemma SavedRevalidates(config: Config, resolve: string -> string)
    requires CanonicalResolver(resolve)
    requires SaveAppConfig(config, resolve, false).Written?
    ensures Security.ValidateJsonConfig(SaveAppConfig(config, resolve, false).saved, resolve) ==
      Ok(SaveAppConfig(config, resolve, false).saved)
  {
    var saved := SaveAppConfig(config, resolve, false).saved;
    Security.ValidateJsonConfigSpec(config, resolve);
    assert Security.ValidateJsonConfig(config, resolve) == Ok(saved);
    SavedAcceptable(config, saved, resolve);
    Security.ValidateJsonConfigSpec(saved, resolve);
    var again := Security.ValidateJsonConfig(saved, resolve);
    assert again.value == saved by {
      forall k | k in saved ensures again.value[k] == saved[k] {
        if k in Security.PATH_KEYS {
          assert saved[k] == Json.Str(resolve(config[k].s));
          assert resolve(resolve(config[k].s)) == resolve(config[k].s);
        }
      }
    }
  }

  /** The validated form of an acceptable configuration is acceptable itself. */
  lemma SavedAcceptable(config: Config, saved: Config, resolve: string -> string)
    requires CanonicalResolver(resolve)
    requires Security.Acceptable(config)
    requires saved.Keys == config.Keys
    requires forall k | k in config && k !in Security.PATH_KEYS :: saved[k] == config[k]
    requires forall k | k in config && k in Security.PATH_KEYS :: saved[k] == Json.Str(resolve(config[k].s))
    ensures Security.Acceptable(saved)
  {
    assert "model_name" in saved ==> saved["model_name"] == config["model_name"];
    forall k | k in Security.PATH_KEYS && k in saved
      ensures saved[k].Str? && !Security.Traversal(saved[k].s)
    {
      assert saved[k] == Json.Str(resolve(config[k].s));
    }
    ValuesOkAfterPaths(config, saved);
  }

  /** Two configurations that agree outside the path keys agree on the value checks. */
  lemma ValuesOkAfterPaths(a: Config, b: Config)
    requires a.Keys == b.Keys
    requires forall k | k in a && k !in Security.PATH_KEYS :: b[k] == a[k]
    requires Security.ValuesOk(a)
    ensures Security.ValuesOk(b)
  {
    assert forall k | k in Security.BOOL_KEYS :: k !in Security.PATH_KEYS;
    assert "silence_threshold" !in Security.PATH_KEYS && "fw_device_index" !in Security.PATH_KEYS;
    assert "model_type" !in Security.PATH_KEYS && "fw_device" !in Security.PATH_KEYS;
    assert "fw_compute_type" !in Security.PATH_KEYS && "device" !in Security.PATH_KEYS;
  }

  /** Every loaded configuration, defaults or a file that is not a list, passes the choice
      checks: in particular its `model_type` is one of the three backends. */
  lemma LoadedChoicesValid(d: Paths.Dirs, present: string -> bool, read: string -> FileRead,
                           resolve: string -> string)
    requires LoadAppConfig(d, present, read, resolve).Ok?
    requires !HoldsList(Paths.GetConfigFile(d, present), present, read)
    ensures var c := LoadAppConfig(d, present, read, resolve).value;
      Security.ChoiceOk(c, "model_type") && Security.ChoiceOk(c, "fw_device") &&
      Security.ChoiceOk(c, "fw_compute_type") && Security.ChoiceOk(c, "device")
  {
    DefaultsHold(d);
    LoadFileChoices(CodeDefaults(d), Paths.GetConfigFile(d, present), present, read, resolve);
  }

  /** Loading any file but a list over choice-valid defaults keeps every choice valid. */
  lemma LoadFileChoices(defaults: Config, file: string, present: string -> bool, read: string -> FileRead,
                        resolve: string -> string)
    requires LoadFile(defaults, file, present, read, resolve).Ok?
    requires !HoldsList(file, present, read)
    requires Security.ChoiceOk(defaults, "model_type") && Security.ChoiceOk(defaults, "fw_device")
    requires Security.ChoiceOk(defaults, "fw_compute_type") && Security.ChoiceOk(defaults, "device")
    ensures var c := LoadFile(defaults, file, present, read, resolve).value;
      Security.ChoiceOk(c, "model_type") && Security.ChoiceOk(c, "fw_device") &&
      Security.ChoiceOk(c, "fw_compute_type") && Security.ChoiceOk(c, "device")
  {
    if present(file) && read(file).Parsed? && read(file).v.Object? {
      var fields := read(file).v.fields;
      var r := Security.ValidateJsonConfig(fields, resolve);
      if r.Ok? {
        Security.ValidateJsonConfigSpec(fields, resolve);
        ChoicesOverlay(defaults, fields, r.value);
      }
    }
  }

  /** Overlaying a validated file on choice-valid defaults keeps every choice valid. */
  lemma ChoicesOverlay(defaults: Config, fields: Config, validated: Config)
    requires Security.Acceptable(fields)
    requires validated.Keys == fields.Keys
    requires forall k | k in fields && k !in Security.PATH_KEYS :: validated[k] == fields[k]
    requires Security.ChoiceOk(defaults, "model_type") && Security.ChoiceOk(defaults, "fw_device")
    requires Security.ChoiceOk(defaults, "fw_compute_type") && Security.ChoiceOk(defaults, "device")
    ensures var c := defaults + validated;
      Security.ChoiceOk(c, "model_type") && Security.ChoiceOk(c, "fw_device") &&
      Security.ChoiceOk(c, "fw_compute_type") && Security.ChoiceOk(c, "device")
  {
    assert "model_type" !in Security.PATH_KEYS && "fw_device" !in Security.PATH_KEYS;
    assert "fw_compute_type" !in Security.PATH_KEYS && "device" !in Security.PATH_KEYS;
  }
}
