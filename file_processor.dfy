/** Transcription of audio files in src/talkat/file_processor.py: the path and format checks,
    the request to the model server, the output formats, the single-file command and the
    batch loop. The file system, the audio decoder and the server are parameters. */
module FileProcessor {
  import opened Wrappers
  import opened Text
  import Json
  import Security
  import Client

  // ---------------------------------------------------------------------------------------
  // Path names, the way pathlib splits them

  /** `str.rfind`: the last index holding `c`. */
  function LastIndexOf(s: string, c: char): (r: Option<nat>)
    ensures r.None? <==> c !in s
    ensures r.Some? ==> r.value < |s| && s[r.value] == c && forall j | r.value < j < |s| :: s[j] != c
  {
    if s == [] then None
    else if s[|s| - 1] == c then Some(|s| - 1)
    else
      var r := LastIndexOf(s[..|s| - 1], c);
      assert s == s[..|s| - 1] + [s[|s| - 1]];
      r
  }

  /** The last index is the only one with `c` at it and none after it. */
  lemma LastIndexOfIs(s: string, c: char, i: nat)
    requires i < |s| && s[i] == c
    requires forall j | i < j < |s| :: s[j] != c
    ensures LastIndexOf(s, c) == Some(i)
  {
  }

  /** `PurePath.name`: what follows the last separator. */
  function BaseName(p: string): (n: string)
    ensures '/' !in n
  {
    match LastIndexOf(p, '/')
    case None => p
    case Some(i) => p[i + 1..]
  }

  /** Where `PurePath.suffix` and `PurePath.stem` cut a name: at its last dot, when that dot
      is neither the first nor the last character. */
  function SuffixStart(name: string): (k: nat)
    ensures k <= |name|
  {
    match LastIndexOf(name, '.')
    case Some(i) => if 0 < i < |name| - 1 then i else |name|
    case None => |name|
  }

  /** `PurePath.suffix`: empty, or a dot followed by at least one character and no other
      dot. */
  function Suffix(name: string): (x: string)
    ensures x == [] || (|x| >= 2 && x[0] == '.' && '.' !in x[1..])
  {
    var k := SuffixStart(name);
    assert k < |name| ==> LastIndexOf(name, '.').Some? && LastIndexOf(name, '.').value == k;
    name[k..]
  }

  /** `PurePath.stem`. */
  function Stem(name: string): string
  {
    name[..SuffixStart(name)]
  }

  /** A name is its stem followed by its suffix, and a nonempty name has a nonempty stem. */
  lemma StemSuffix(name: string)
    ensures Stem(name) + Suffix(name) == name
    ensures name != [] ==> Stem(name) != []
  {
    assert name[..SuffixStart(name)] + name[SuffixStart(name)..] == name;
  }

  /** The name of `dir/stem+ext`, where `ext` is a dot and more and has no other dot, splits
      back into `stem` and `ext`. */
  lemma {:induction false} NameSplits(dir: string, stem: string, ext: string)
    requires stem != [] && '/' !in stem
    requires |ext| >= 2 && ext[0] == '.' && '.' !in ext[1..] && '/' !in ext
    ensures BaseName(dir + "/" + stem + ext) == stem + ext
    ensures Suffix(stem + ext) == ext
    ensures Stem(stem + ext) == stem
  {
    var p := dir + "/" + stem + ext;
    assert p[|dir|] == '/';
    forall j | |dir| < j < |p|
      ensures p[j] != '/'
    {
      if j <= |dir| + |stem| {
        assert p[j] == stem[j - |dir| - 1];
      } else {
        assert p[j] == ext[j - |dir| - 1 - |stem|];
      }
    }
    LastIndexOfIs(p, '/', |dir|);
    assert p[|dir| + 1..] == stem + ext;
    var n := stem + ext;
    assert n[|stem|] == '.';
    forall j | |stem| < j < |n|
      ensures n[j] != '.'
    {
      assert n[j] == ext[j - |stem|] == ext[1..][j - |stem| - 1];
    }
    LastIndexOfIs(n, '.', |stem|);
    assert n[|stem|..] == ext && n[..|stem|] == stem;
  }

  // ---------------------------------------------------------------------------------------
  // transcribe_audio_file

  /** The formats the file checker accepts, compared on the lower-cased suffix. */
  const SUPPORTED: set<string> := {".wav", ".mp3", ".flac", ".ogg", ".m4a", ".mp4", ".webm"}

  predicate Supported(path: string)
  {
    LowerAscii(Suffix(BaseName(path))) in SUPPORTED
  }

  /** An audio file name is accepted exactly when its extension, lower-cased, is one of the
      supported ones, whatever the directory and the stem. */
  lemma SupportedByExtension(dir: string, stem: string, ext: string)
    requires stem != [] && '/' !in stem
    requires |ext| >= 2 && ext[0] == '.' && '.' !in ext[1..] && '/' !in ext
    ensures Supported(dir + "/" + stem + ext) <==> LowerAscii(ext) in SUPPORTED
  {
    NameSplits(dir, stem, ext);
  }

  /** What the server says to the `/transcribe_file` upload: the request raised, or a status
      with a body that is JSON (`Some`) or not (`None`). */
  datatype Posted = PostRaised | Answered(status: int, body: Option<Json.Value>)

  /** The world `transcribe_audio_file` reads. `resolve` is `expanduser().resolve()`, `present`
      whether a resolved path exists, `decoder` whether librosa and soundfile import, `load`
      the duration librosa finds (`None`: it raised), `health` the status of `/health`
      (`None`: the request raised) and `post` the upload's answer for a resolved path.
      `writeFails` says whether `write_text` raises for a batch output path. */
  datatype FileEnv = FileEnv(resolve: string -> string, present: string -> bool, decoder: bool,
                             load: string -> Option<real>, health: Option<int>,
                             post: string -> Posted, writeFails: string -> bool)

  datatype FileError = InvalidFile | UnsupportedFormat

  /** How `transcribe_audio_file` ends: a stripped transcription (possibly empty) and the
      audio's duration; an exception the callers' `except Exception` catches; or
      `sys.exit(1)`, a `SystemExit` they do not catch. */
  datatype FileOutcome = Transcribed(text: string, duration: real) | Raised(error: FileError) | Exited

  /** The path is refused when it traverses, or its resolved form does not exist. */
  predicate PathRefused(path: string, env: FileEnv)
  {
    Security.ValidateFilePath(path, env.resolve).Err? || !env.present(env.resolve(path))
  }

  /** The transcription the server replied with, when every step of the request succeeded. */
  function ServerText(path: string, env: FileEnv): Option<string>
  {
    var p := env.resolve(path);
    match env.post(p)
    case Answered(200, Some(v)) =>
      if env.decoder && env.load(p).Some? && env.health == Some(200) then Client.ResponseText(v) else None
    case _ => None
  }

  /** `transcribe_audio_file` with the configured server. A refused path and an unsupported
      suffix raise; every later failure (no decoder, a file that does not decode, a server
      that is down or not healthy, a request that fails or answers an error or other than a
      JSON object with a string `text`) exits. */
  function TranscribeAudioFile(path: string, env: FileEnv): (o: FileOutcome)
    ensures o.Raised? <==> PathRefused(path, env) || !Supported(env.resolve(path))
    ensures o.Raised? ==> (o.error == InvalidFile <==> PathRefused(path, env))
    ensures o.Transcribed? <==> !o.Raised? && ServerText(path, env).Some?
    ensures o.Transcribed? ==>
      o.text == ServerText(path, env).value && Strip(o.text) == o.text &&
      Some(o.duration) == env.load(env.resolve(path))
  {
    var p := env.resolve(path);
    if Security.ValidateFilePath(path, env.resolve).Err? || !env.present(p) then Raised(InvalidFile)
    else if !Supported(p) then Raised(UnsupportedFormat)
    else if !env.decoder then Exited
    else match env.load(p)
      case None => Exited
      case Some(duration) =>
        if env.health != Some(200) then Exited
        else match env.post(p)
          case PostRaised => Exited
          case Answered(status, body) =>
            if status != 200 || body.None? then Exited
            else match Client.ResponseText(body.value)
              case None => Exited
              case Some(t) => Transcribed(t, duration)
  }

  /** A path with a parent step is refused before anything is read. */
  lemma TraversalRaises(path: string, env: FileEnv)
    requires Security.Traversal(path)
    ensures TranscribeAudioFile(path, env) == Raised(InvalidFile)
  {
  }

  // ---------------------------------------------------------------------------------------
  // format_output

  /** The formatted transcription: the text itself, the JSON document, or one subtitle
      spanning the whole audio. */
  datatype Output = Plain(text: string) | JsonDoc(doc: Json.Value) | Srt(text: string, duration: real) | Vtt(text: string, duration: real)

  function WordValues(ws: seq<string>): (vs: seq<Json.Value>)
    ensures |vs| == |ws| && forall i | 0 <= i < |ws| :: vs[i] == Json.Str(ws[i])
  {
    if ws == [] then [] else [Json.Str(ws[0])] + WordValues(ws[1..])
  }

  /** `format_output`: "json" gives an object with the text, the duration and the words of
      `split()`; "srt" and "vtt" a single cue; any other format the text unchanged. */
  function FormatOutput(text: string, duration: real, format: string): (out: Output)
    ensures format == "json" ==>
      (out.JsonDoc? && out.doc.Object? &&
       out.doc.fields.Keys == {"text", "duration", "words"} &&
       out.doc.fields["text"] == Json.Str(text) &&
       out.doc.fields["duration"] == Json.Real(duration) &&
       out.doc.fields["words"] == Json.List(WordValues(Words(text))))
    ensures format == "srt" ==> out == Srt(text, duration)
    ensures format == "vtt" ==> out == Vtt(text, duration)
    ensures format !in {"json", "srt", "vtt"} ==> out == Plain(text)
  {
    if format == "json" then
      JsonDoc(Json.Object(map["text" := Json.Str(text), "duration" := Json.Real(duration),
                              "words" := Json.List(WordValues(Words(text)))]))
    else if format == "srt" then Srt(text, duration)
    else if format == "vtt" then Vtt(text, duration)
    else Plain(text)
  }

  /** The JSON document carries the transcription back: a reader that takes its `text` and
      strips it, as the client does with the server's replies, recovers a transcription from
      `transcribe_audio_file`. */
  lemma JsonOutputReadsBack(text: string, duration: real)
    requires Strip(text) == text
    ensures Client.ResponseText(FormatOutput(text, duration, "json").doc) == Some(text)
  {
  }

  // ---------------------------------------------------------------------------------------
  // batch_process_files: the output name

  /** The extension of a batch output file. */
  function OutputExtension(format: string): (ext: string)
    ensures format in {"json", "srt", "vtt"} ==> ext == "." + format
    ensures format !in {"json", "srt", "vtt"} ==> ext == ".txt"
  {
    if format == "json" then ".json"
    else if format == "srt" then ".srt"
    else if format == "vtt" then ".vtt"
    else ".txt"
  }

  /** `output_dir / f"{stem}{ext}"` for an input path. */
  function OutputPath(outDir: string, input: string, format: string): string
  {
    outDir + "/" + Stem(BaseName(input)) + OutputExtension(format)
  }

  /** The output file sits in the output directory, keeps the input's stem and carries the
      format's extension as its suffix. */
  lemma OutputNameKeepsStem(outDir: string, input: string, format: string)
    requires BaseName(input) != []
    ensures var name := BaseName(OutputPath(outDir, input, format));
      Stem(name) == Stem(BaseName(input)) && Suffix(name) == OutputExtension(format)
  {
    var ext := OutputExtension(format);
    StemSuffix(BaseName(input));
    var stem := Stem(BaseName(input));
    assert '/' !in stem by {
      forall j | 0 <= j < |stem|
        ensures stem[j] != '/'
      {
        assert stem[j] == BaseName(input)[j];
      }
    }
    assert ext[0] == '.' && '.' !in ext[1..] && '/' !in ext;
    NameSplits(outDir, stem, ext);
  }

  // ---------------------------------------------------------------------------------------
  // batch_process_files: the loop

  /** Where the batch puts a file's output: in the output directory, or on standard output. */
  datatype Batch = Batch(success: nat, errors: nat, written: map<string, Output>, printed: seq<Output>, exited: bool)

  /** Whether the batch writes into a directory: `if output_dir:` treats "" as no directory. */
  predicate HasDir(outDir: Option<string>)
  {
    outDir.Some? && outDir.value != ""
  }

  /** One file of the batch. A nonempty transcription is formatted and written (or printed)
      and counts as a success, unless the write raises; an empty one and a raised error count
      as errors; an exit ends the batch. */
  function BatchStep(b: Batch, input: string, outDir: Option<string>, format: string, env: FileEnv): Batch
  {
    if b.exited then b else Handle(b, input, TranscribeAudioFile(input, env), outDir, format, env.writeFails)
  }

  /** What the outcome `o` of transcribing `input` does to the batch. */
  function Handle(b: Batch, input: string, o: FileOutcome, outDir: Option<string>, format: string,
                  writeFails: string -> bool): Batch
  {
    match o
    case Exited => b.(exited := true)
    case Raised(_) => b.(errors := b.errors + 1)
    case Transcribed(t, duration) =>
      if t == "" then b.(errors := b.errors + 1)
      else
        var out := FormatOutput(t, duration, format);
        if HasDir(outDir) then
          var path := OutputPath(outDir.value, input, format);
          if writeFails(path) then b.(errors := b.errors + 1)
          else b.(success := b.success + 1, written := b.written[path := out])
        else b.(success := b.success + 1, printed := b.printed + [out])
  }

  function BatchFold(inputs: seq<string>, outDir: Option<string>, format: string, env: FileEnv): Batch
  {
    if inputs == [] then Batch(0, 0, map[], [], false)
    else BatchStep(BatchFold(inputs[..|inputs| - 1], outDir, format, env), inputs[|inputs| - 1], outDir, format, env)
  }

  /** A file whose transcription is not empty. */
  predicate Transcribes(input: string, env: FileEnv)
  {
    var o := TranscribeAudioFile(input, env);
    o.Transcribed? && o.text != ""
  }

  /** A file that the batch counts as a success: it transcribes, and its output file, when
      there is an output directory, is written without an error. */
  predicate Succeeds(input: string, outDir: Option<string>, format: string, env: FileEnv)
  {
    Transcribes(input, env) && !(HasDir(outDir) && env.writeFails(OutputPath(outDir.value, input, format)))
  }

  predicate Exits(input: string, env: FileEnv)
  {
    TranscribeAudioFile(input, env).Exited?
  }

  function Successes(inputs: seq<string>, outDir: Option<string>, format: string, env: FileEnv): nat
  {
    if inputs == [] then 0
    else Successes(inputs[..|inputs| - 1], outDir, format, env) + (if Succeeds(inputs[|inputs| - 1], outDir, format, env) then 1 else 0)
  }

  /** One step of the batch: nothing after an exit; otherwise an exit exactly when the file
      exits, and else one more file counted, as a success exactly when it succeeds. */
  lemma BatchStepCounts(b: Batch, input: string, outDir: Option<string>, format: string, env: FileEnv)
    ensures var b' := BatchStep(b, input, outDir, format, env);
      (b.exited ==> b' == b) &&
      (!b.exited ==> (b'.exited <==> Exits(input, env))) &&
      (!b'.exited ==> b'.success + b'.errors == b.success + b.errors + 1 &&
                      b'.success == b.success + (if Succeeds(input, outDir, format, env) then 1 else 0))
  {
    if !b.exited {
      var o := TranscribeAudioFile(input, env);
      if !o.Exited? {
        HandleCounts(b, input, o, outDir, format, env.writeFails);
      }
    }
  }

  lemma HandleCounts(b: Batch, input: string, o: FileOutcome, outDir: Option<string>, format: string,
                     writeFails: string -> bool)
    requires !o.Exited?
    ensures var b' := Handle(b, input, o, outDir, format, writeFails);
      b'.exited == b.exited && b'.success + b'.errors == b.success + b.errors + 1 &&
      b'.success == b.success +
        (if o.Transcribed? && o.text != "" && !(HasDir(outDir) && writeFails(OutputPath(outDir.value, input, format))) then 1 else 0)
  {
  }

  /** Some element satisfies `p`, found from the end the way the batch fold is built. */
  predicate AnyOf(xs: seq<string>, p: string -> bool)
  {
    xs != [] && (AnyOf(xs[..|xs| - 1], p) || p(xs[|xs| - 1]))
  }

  lemma {:induction false} AnyOfMeans(xs: seq<string>, p: string -> bool)
    ensures AnyOf(xs, p) <==> exists i | 0 <= i < |xs| :: p(xs[i])
  {
    if xs != [] {
      var init := xs[..|xs| - 1];
      AnyOfMeans(init, p);
      if AnyOf(init, p) {
        var i :| 0 <= i < |init| && p(init[i]);
        assert xs[i] == init[i];
      }
      if exists i | 0 <= i < |xs| :: p(xs[i]) {
        var i :| 0 <= i < |xs| && p(xs[i]);
        if i < |init| {
          assert init[i] == xs[i];
        }
      }
    }
  }

  predicate AnyExits(inputs: seq<string>, env: FileEnv)
  {
    AnyOf(inputs, x => Exits(x, env))
  }

  /** When no file exits, every file is counted exactly once and the successes are the files
      with a nonempty transcription; the batch exits exactly when some file does. */
  lemma {:induction false} BatchTally(inputs: seq<string>, outDir: Option<string>, format: string, env: FileEnv)
    ensures var b := BatchFold(inputs, outDir, format, env);
      (b.exited <==> AnyExits(inputs, env)) &&
      (!b.exited ==> b.success + b.errors == |inputs| && b.success == Successes(inputs, outDir, format, env))
  {
    if inputs != [] {
      var init := inputs[..|inputs| - 1];
      BatchTally(init, outDir, format, env);
      BatchStepCounts(BatchFold(init, outDir, format, env), inputs[|inputs| - 1], outDir, format, env);
    }
  }

  lemma BatchCounts(inputs: seq<string>, outDir: Option<string>, format: string, env: FileEnv)
    ensures var b := BatchFold(inputs, outDir, format, env);
      (b.exited <==> exists i | 0 <= i < |inputs| :: Exits(inputs[i], env)) &&
      (!b.exited ==> b.success + b.errors == |inputs| && b.success == Successes(inputs, outDir, format, env))
  {
    BatchTally(inputs, outDir, format, env);
    AnyOfMeans(inputs, x => Exits(x, env));
  }

  /** An empty output directory is no directory: the batch prints, as it does without one. */
  lemma {:induction false} EmptyDirIsStdout(inputs: seq<string>, format: string, env: FileEnv)
    ensures BatchFold(inputs, Some(""), format, env) == BatchFold(inputs, None, format, env)
  {
    if inputs != [] {
      EmptyDirIsStdout(inputs[..|inputs| - 1], format, env);
    }
  }

  /** What `batch_process_files` returns: an exit code, or the `SystemExit` that escapes it. */
  datatype BatchEnd = Completed(code: int) | BatchExited

  /** `batch_process_files`: the files in order, tallied, their outputs written by output
      name or printed; the result is 0 when no file was an error. */
  method BatchProcessFiles(inputs: seq<string>, outDir: Option<string>, format: string, env: FileEnv)
    returns (end: BatchEnd, success: nat, errors: nat, written: map<string, Output>, printed: seq<Output>)
    ensures var b := BatchFold(inputs, outDir, format, env);
      success == b.success && errors == b.errors && written == b.written && printed == b.printed &&
      (end.BatchExited? <==> b.exited)
    ensures end.Completed? ==> (end.code == 0 <==> errors == 0) && (end.code == 0 || end.code == 1)
    ensures end.Completed? ==> success + errors == |inputs| && success == Successes(inputs, outDir, format, env)
  {
    success, errors, written, printed := 0, 0, map[], [];
    var i := 0;
    while i < |inputs|
      invariant 0 <= i <= |inputs|
      invariant Batch(success, errors, written, printed, false) == BatchFold(inputs[..i], outDir, format, env)
    {
      BatchFoldSnoc(inputs, i, outDir, format, env);
      var o := TranscribeAudioFile(inputs[i], env);
      if o.Exited? {
        BatchExitSticks(inputs, i, outDir, format, env);
        return BatchExited, success, errors, written, printed;
      }
      success, errors, written, printed := HandleFile(inputs[i], o, outDir, format, env.writeFails, success, errors, written, printed);
      i := i + 1;
    }
    assert inputs[..i] == inputs;
    BatchCounts(inputs, outDir, format, env);
    end := Completed(if errors == 0 then 0 else 1);
  }

  /** The loop body after `transcribe_audio_file` returned `o`: write or print the output
      and count a success, or count an error. */
  method HandleFile(input: string, o: FileOutcome, outDir: Option<string>, format: string, writeFails: string -> bool,
                    success: nat, errors: nat, written: map<string, Output>, printed: seq<Output>)
    returns (success': nat, errors': nat, written': map<string, Output>, printed': seq<Output>)
    requires !o.Exited?
    ensures Batch(success', errors', written', printed', false) ==
      Handle(Batch(success, errors, written, printed, false), input, o, outDir, format, writeFails)
  {
    if o.Transcribed? && o.text != "" {
      var out := FormatOutput(o.text, o.duration, format);
      if outDir.Some? && outDir.value != "" {
        var path := OutputPath(outDir.value, input, format);
        if writeFails(path) {
          return success, errors + 1, written, printed;
        }
        return success + 1, errors, written[path := out], printed;
      }
      return success + 1, errors, written, printed + [out];
    }
    return success, errors + 1, written, printed;
  }

  lemma BatchFoldSnoc(inputs: seq<string>, i: nat, outDir: Option<string>, format: string, env: FileEnv)
    requires i < |inputs|
    ensures BatchFold(inputs[..i + 1], outDir, format, env) == BatchStep(BatchFold(inputs[..i], outDir, format, env), inputs[i], outDir, format, env)
  {
    assert inputs[..i + 1][..i] == inputs[..i];
  }

  /** Once a file exits, the files after it change nothing. */
  lemma {:induction false} BatchExitSticks(inputs: seq<string>, i: nat, outDir: Option<string>, format: string, env: FileEnv)
    requires i < |inputs| && Exits(inputs[i], env)
    ensures BatchFold(inputs, outDir, format, env) == BatchFold(inputs[..i], outDir, format, env).(exited := true)
    decreases |inputs|
  {
    var n := |inputs| - 1;
    BatchFoldSnoc(inputs, n, outDir, format, env);
    assert inputs[..n + 1] == inputs;
    var before := BatchFold(inputs[..n], outDir, format, env);
    if n == i {
      BatchStepExits(before, inputs[n], outDir, format, env);
    } else {
      BatchExitSticks(inputs[..n], i, outDir, format, env);
      assert inputs[..n][..i] == inputs[..i];
      BatchStepAfterExit(before, inputs[n], outDir, format, env);
    }
  }

  lemma BatchStepExits(b: Batch, input: string, outDir: Option<string>, format: string, env: FileEnv)
    requires Exits(input, env)
    ensures BatchStep(b, input, outDir, format, env) == b.(exited := true)
  {
  }

  lemma BatchStepAfterExit(b: Batch, input: string, outDir: Option<string>, format: string, env: FileEnv)
    requires b.exited
    ensures BatchStep(b, input, outDir, format, env) == b
  {
  }

  // ---------------------------------------------------------------------------------------
  // process_audio_file_command

  /** How the single-file command ends: an exit code with what it wrote (the output file's
      path and contents) or printed, or the `SystemExit` of the transcription. */
  datatype CommandEnd = Code(code: int, written: Option<(string, Output)>, printed: Option<Output>) | CommandExited

  /** `process_audio_file_command`. An empty `outputFile` is the same as none; `writeFails`
      is whether creating the parent directory or writing the file raises. Copying to the
      clipboard never changes the result. */
  function ProcessAudioFileCommand(path: string, outputFile: string, format: string, env: FileEnv, writeFails: bool): (r: CommandEnd)
    ensures r.CommandExited? <==> Exits(path, env)
    ensures r.Code? ==> (r.code == 0 <==> Transcribes(path, env) && !(outputFile != "" && writeFails))
    ensures r.Code? ==> r.code == 0 || r.code == 1
    ensures r.Code? && r.code == 0 ==>
      var o := TranscribeAudioFile(path, env);
      (outputFile != "" ==> r.written == Some((outputFile, FormatOutput(o.text, o.duration, format))) && r.printed.None?) &&
      (outputFile == "" ==> r.printed == Some(FormatOutput(o.text, o.duration, format)) && r.written.None?)
  {
    match TranscribeAudioFile(path, env)
    case Exited => CommandExited
    case Raised(_) => Code(1, None, None)
    case Transcribed(t, duration) =>
      if t == "" then Code(1, None, None)
      else
        var out := FormatOutput(t, duration, format);
        if outputFile != "" then (if writeFails then Code(1, None, None) else Code(0, Some((outputFile, out)), None))
        else Code(0, None, Some(out))
  }

  /** The command and a one-file batch without an output directory agree: the command
      succeeds exactly when the batch does, and both print the same output. */
  lemma CommandAgreesWithBatch(path: string, format: string, env: FileEnv)
    ensures var r := ProcessAudioFileCommand(path, "", format, env, false);
      var b := BatchFold([path], None, format, env);
      (r.CommandExited? <==> b.exited) &&
      (r.Code? ==> (r.code == 0 <==> b.errors == 0) && (r.code == 0 ==> b.printed == [r.printed.value]))
  {
    assert [path][..0] == [];
  }
}
