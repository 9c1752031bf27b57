/** The multi-backend model server of src/talkat/model_server_v2.py: the three backends'
    transcription entry points, the server object that picks a backend from the configuration,
    and the `/transcribe`, `/transcribe_stream` and `/health` endpoints. The recognisers
    themselves, and base64 decoding, are parameters. */
module ModelServerV2 {
  import opened Wrappers
  import opened Seqs
  import opened Text
  import Json
  import Config
  import Security
  import Paths
  import ModelServer
  import Client
  import Record

  const PIECE: nat := 4096

  /** The backend classes. */
  datatype Kind = FasterWhisper | DistilWhisper | Vosk

  /** A loaded backend: its class and the model name it was built with. */
  datatype Backend = Backend(kind: Kind, model: Json.Value)

  /** The recognisers. `recognise` runs a Whisper-style model, or a one-shot Kaldi recogniser
      for Vosk, over 16-bit audio at a sample rate; `voskStream` feeds a Kaldi recogniser one
      chunk at a time. Each returns `None` when it raises. */
  datatype Engines = Engines(recognise: (Kind, seq<byte>, int) -> Option<string>,
                             voskStream: (int, seq<seq<byte>>) -> Option<string>)

  /** Why a transcription raises: no backend (RuntimeError), a byte buffer of odd length, which
      `np.frombuffer(..., dtype=np.int16)` refuses (ValueError), or the model itself. */
  datatype Fault = NotInitialized | OddBuffer | ModelRaised

  // ---------------------------------------------------------------------------------------
  // Backends

  /** `transcribe` of each backend: no samples give "", otherwise the model's text, stripped. */
  function BackendTranscribe(b: Backend, audio: seq<byte>, rate: int, e: Engines): (r: Result<string, Fault>)
    ensures audio == [] ==> r == Ok("")
    ensures r.Ok? ==> Strip(r.value) == r.value
    ensures r.Err? ==> r.error == ModelRaised
    ensures audio != [] ==> (r.Err? <==> e.recognise(b.kind, audio, rate).None?)
    ensures audio != [] && r.Ok? ==> r.value == Strip(e.recognise(b.kind, audio, rate).value)
  {
    if audio == [] then Ok("")
    else match e.recognise(b.kind, audio, rate)
      case None => Err(ModelRaised)
      case Some(t) => StripIdempotent(t); Ok(Strip(t))
  }

  /** `ModelServer.transcribe` on bytes: the backend check, the int16 conversion, then the
      backend. */
  function ServerTranscribe(backend: Option<Backend>, audio: seq<byte>, rate: int, e: Engines): (r: Result<string, Fault>)
    ensures backend.None? ==> r == Err(NotInitialized)
    ensures backend.Some? && |audio| % 2 == 1 ==> r == Err(OddBuffer)
    ensures backend.Some? && audio == [] ==> r == Ok("")
    ensures r.Ok? ==> Strip(r.value) == r.value
  {
    if backend.None? then Err(NotInitialized)
    else if |audio| % 2 == 1 then Err(OddBuffer)
    else BackendTranscribe(backend.value, audio, rate, e)
  }

  /** `transcribe_stream` of each backend. The two Whisper backends join the chunks and
      transcribe the whole buffer; Vosk feeds its recogniser chunk by chunk and always asks it
      for a final result. */
  function BackendTranscribeStream(b: Backend, chunks: seq<seq<byte>>, rate: int, e: Engines): (r: Result<string, Fault>)
    ensures b.kind != Vosk && Concat(chunks) == [] ==> r == Ok("")
    ensures r.Ok? ==> Strip(r.value) == r.value
  {
    if b.kind == Vosk then
      match e.voskStream(rate, chunks)
      case None => Err(ModelRaised)
      case Some(t) => StripIdempotent(t); Ok(Strip(t))
    else
      var buffer := Concat(chunks);
      if buffer == [] then Ok("")
      else if |buffer| % 2 == 1 then Err(OddBuffer)
      else BackendTranscribe(b, buffer, rate, e)
  }

  /** For the Whisper backends streaming and one-shot transcription agree: however the audio is
      cut into chunks, the result is that of transcribing the joined bytes. */
  lemma StreamIsOneShot(b: Backend, chunks: seq<seq<byte>>, rate: int, e: Engines)
    requires b.kind != Vosk
    ensures BackendTranscribeStream(b, chunks, rate, e) == ServerTranscribe(Some(b), Concat(chunks), rate, e)
  {
  }

  /** The Whisper backends' buffer: `audio_buffer.extend(chunk)` for each chunk, in order. */
  method Gather(chunks: seq<seq<byte>>) returns (buffer: seq<byte>)
    ensures buffer == Concat(chunks)
  {
    buffer := [];
    var i := 0;
    while i < |chunks|
      invariant 0 <= i <= |chunks|
      invariant buffer == Concat(chunks[..i])
    {
      assert chunks[..i + 1] == chunks[..i] + [chunks[i]];
      ConcatAppend(chunks[..i], [chunks[i]]);
      ConcatSingle(chunks[i]);
      buffer := buffer + chunks[i];
      i := i + 1;
    }
    assert chunks[..i] == chunks;
  }

  /** The method form of `BackendTranscribeStream`, with the buffer loop. */
  method StreamTranscription(b: Backend, chunks: seq<seq<byte>>, rate: int, e: Engines) returns (r: Result<string, Fault>)
    ensures r == BackendTranscribeStream(b, chunks, rate, e)
  {
    if b.kind == Vosk {
      var t := e.voskStream(rate, chunks);
      if t.None? {
        return Err(ModelRaised);
      }
      StripIdempotent(t.value);
      return Ok(Strip(t.value));
    }
    var buffer := Gather(chunks);
    if buffer == [] {
      return Ok("");
    }
    if |buffer| % 2 == 1 {
      return Err(OddBuffer);
    }
    r := BackendTranscribe(b, buffer, rate, e);
  }

  // ---------------------------------------------------------------------------------------
  // The chunk generator of /transcribe_stream

  /** What `request.stream.read(4096)` returns call by call until it returns nothing: the
      stream cut into 4096-byte pieces, the last possibly shorter. */
  function Pieces(b: seq<byte>): (ps: seq<seq<byte>>)
    ensures Concat(ps) == b
    ensures forall i | 0 <= i < |ps| :: 0 < |ps[i]| <= PIECE
    ensures forall i | 0 <= i < |ps| - 1 :: |ps[i]| == PIECE
    decreases |b|
  {
    if b == [] then []
    else if |b| <= PIECE then ConcatSingle(b); [b]
    else
      var rest := Pieces(b[PIECE..]);
      assert ([b[..PIECE]] + rest)[1..] == rest;
      [b[..PIECE]] + rest
  }

  /** One read: the first piece, and the pieces of what follows it. */
  lemma PiecesHead(b: seq<byte>, n: nat)
    requires b != [] && n == (if |b| < PIECE then |b| else PIECE)
    ensures Pieces(b) == [b[..n]] + Pieces(b[n..])
  {
    if |b| <= PIECE {
      assert b[..n] == b && b[n..] == [];
    }
  }

  /** The read at `pos`: the piece there, and the pieces of what follows it. */
  lemma PiecesAt(stream: seq<byte>, pos: nat, n: nat)
    requires pos < |stream| && n == (if |stream| - pos < PIECE then |stream| - pos else PIECE)
    ensures Pieces(stream[pos..]) == [stream[pos..pos + n]] + Pieces(stream[pos + n..])
  {
    var tail := stream[pos..];
    PiecesHead(tail, n);
    assert tail[..n] == stream[pos..pos + n] && tail[n..] == stream[pos + n..];
  }

  /** `audio_chunk_generator`: reads until an empty read, yielding each piece. */
  method ReadPieces(stream: seq<byte>) returns (chunks: seq<seq<byte>>)
    ensures chunks == Pieces(stream)
  {
    chunks := [];
    var pos := 0;
    while pos < |stream|
      invariant 0 <= pos <= |stream|
      invariant chunks + Pieces(stream[pos..]) == Pieces(stream)
      decreases |stream| - pos
    {
      var n := if |stream| - pos < PIECE then |stream| - pos else PIECE;
      PiecesAt(stream, pos, n);
      AppendAssoc(chunks, [stream[pos..pos + n]], Pieces(stream[pos + n..]));
      chunks := chunks + [stream[pos..pos + n]];
      pos := pos + n;
    }
    assert stream[pos..] == [];
  }

  // ---------------------------------------------------------------------------------------
  // Endpoints

  /** `transcribe_audio_stream`: no backend is 500, a missing metadata line 400, and any
      error after that (the metadata, the conversion, the model) 500 from the handler's
      `except`. */
  function StreamEndpoint(backend: Option<Backend>, body: seq<byte>, e: Engines): (r: ModelServer.Response)
    ensures backend.None? ==> r.status == 500
    ensures backend.Some? && body == [] ==> r.status == 400
    ensures r.status == 200 <==> r.text.Some?
    ensures r.status in {200, 400, 500}
    ensures r.text.Some? ==> Strip(r.text.value) == r.text.value
  {
    if backend.None? then ModelServer.Response(500, None)
    else
      var (line, rest) := ModelServer.ReadLine(body);
      if line == [] then ModelServer.Response(400, None)
      else match ModelServer.MetadataRate(line)
        case Err(_) => ModelServer.Response(500, None)
        case Ok(rate) =>
          match BackendTranscribeStream(backend.value, Pieces(rest), rate, e)
          case Err(_) => ModelServer.Response(500, None)
          case Ok(t) => ModelServer.Response(200, Some(t))
  }

  /** The client's streamed body, against a loaded Whisper backend, is answered with the
      transcription of exactly the audio it carried. */
  lemma StreamEndpointReadsClient(b: Backend, rate: int, rest: seq<Record.Item>, stopAt: Option<nat>, e: Engines)
    requires b.kind != Vosk
    ensures var audio := Concat(Client.SentChunks(Client.Pulled(rest, stopAt)));
      var r := StreamEndpoint(Some(b), Client.ListenBody(rate, rest, stopAt), e);
      match ServerTranscribe(Some(b), audio, rate, e)
      case Ok(t) => r == ModelServer.Response(200, Some(t))
      case Err(_) => r == ModelServer.Response(500, None)
  {
    var audio := Concat(Client.SentChunks(Client.Pulled(rest, stopAt)));
    ModelServer.StreamRoundTrip(rate, rest, stopAt);
    Client.MetadataLineShape(rate);
    StreamIsOneShot(b, Pieces(audio), rate, e);
  }

  /** The same body against Vosk: the recogniser is fed exactly the 4096-byte pieces of the
      audio the client sent. */
  lemma StreamEndpointFeedsVosk(b: Backend, rate: int, rest: seq<Record.Item>, stopAt: Option<nat>, e: Engines)
    requires b.kind == Vosk
    ensures var audio := Concat(Client.SentChunks(Client.Pulled(rest, stopAt)));
      var r := StreamEndpoint(Some(b), Client.ListenBody(rate, rest, stopAt), e);
      match e.voskStream(rate, Pieces(audio))
      case Some(t) => r == ModelServer.Response(200, Some(Strip(t)))
      case None => r == ModelServer.Response(500, None)
  {
    ModelServer.StreamRoundTrip(rate, rest, stopAt);
    Client.MetadataLineShape(rate);
  }

  /** `key in data` for a JSON value; `None` is the TypeError of a value that supports no
      membership test. */
  function Membership(data: Json.Value, key: string): (r: Option<bool>)
    ensures data.Object? ==> r == Some(key in data.fields)
  {
    match data
    case Object(fields) => Some(key in fields)
    case List(items) => Some(Json.Str(key) in items)
    case Str(s) => Some(Contains(s, key))
    case _ => None
  }

  /** `transcribe_audio`. `data` is what `request.get_json()` returns (`None` for no JSON);
      `decode` is `base64.b64decode` on a string, `None` when it raises. A membership test that
      raises happens outside the `try`, and Flask answers that uncaught exception with 500 as
      well. */
  function TranscribeEndpoint(backend: Option<Backend>, data: Option<Json.Value>, decode: string -> Option<seq<byte>>,
                              e: Engines): (r: ModelServer.Response)
    ensures backend.None? ==> r.status == 500
    ensures backend.Some? && (data.None? || !Json.Truthy(data.value)) ==> r.status == 400
    ensures r.status == 200 <==> r.text.Some?
    ensures r.status == 200 ==> data.Some? && data.value.Object?
  {
    if backend.None? then ModelServer.Response(500, None)
    else if data.None? || !Json.Truthy(data.value) then ModelServer.Response(400, None)
    else
      var v := data.value;
      match Membership(v, "audio_data_b64")
      case None => ModelServer.Response(500, None)
      case Some(hasAudio) =>
        if !hasAudio then ModelServer.Response(400, None)
        else match Membership(v, "rate")
          case None => ModelServer.Response(500, None)
          case Some(hasRate) =>
            if !hasRate then ModelServer.Response(400, None)
            else if !v.Object? || !v.fields["audio_data_b64"].Str? then ModelServer.Response(500, None)
            else match decode(v.fields["audio_data_b64"].s)
              case None => ModelServer.Response(500, None)
              case Some(audio) =>
                match Json.ToInt(v.fields["rate"])
                case Err(_) => ModelServer.Response(500, None)
                case Ok(rate) =>
                  match ServerTranscribe(backend, audio, rate, e)
                  case Err(_) => ModelServer.Response(500, None)
                  case Ok(t) => ModelServer.Response(200, Some(t))
  }

  /** A well-formed request, a base64 string and an integer rate, is answered with the
      transcription of the decoded bytes; an object missing either key is a 400. */
  lemma TranscribeRequest(b: Backend, fields: map<string, Json.Value>, decode: string -> Option<seq<byte>>, e: Engines)
    ensures ("audio_data_b64" !in fields || "rate" !in fields) ==>
      TranscribeEndpoint(Some(b), Some(Json.Object(fields)), decode, e).status == 400
    ensures ("audio_data_b64" in fields && fields["audio_data_b64"].Str? && "rate" in fields && fields["rate"].Int? &&
      decode(fields["audio_data_b64"].s).Some?) ==>
      var r := TranscribeEndpoint(Some(b), Some(Json.Object(fields)), decode, e);
      match ServerTranscribe(Some(b), decode(fields["audio_data_b64"].s).value, fields["rate"].i, e)
      case Ok(t) => r == ModelServer.Response(200, Some(t))
      case Err(_) => r == ModelServer.Response(500, None)
  {
    if "audio_data_b64" in fields {
      assert Json.Truthy(Json.Object(fields)) by {
        assert fields != map[];
      }
    }
  }

  /** `transcribe_file`'s checks before decoding: 500 without a backend, 400 without an
      `audio` file or with an empty file name. A missing librosa only raises inside the `try`,
      and is a 500 from there. */
  function FileGuard(backend: Option<Backend>, audio: ModelServer.AudioPart): (r: Option<int>)
    ensures r.None? <==> backend.Some? && audio.AudioFile? && audio.filename != ""
    ensures r.Some? ==> (r.value == 500 <==> backend.None?) && (r.value == 400 || r.value == 500)
  {
    if backend.None? then Some(500)
    else match audio
      case NoAudio => Some(400)
      case EmptyFilename => Some(400)
      case AudioFile(name) => if name == "" then Some(400) else None
  }

  /** Both servers check an upload alike once librosa imports: the first server merely tests
      for librosa before the upload. */
  lemma FileGuardsAgree(backend: Option<Backend>, model: Option<string>, audio: ModelServer.AudioPart)
    requires backend.Some? <==> model.Some?
    ensures FileGuard(backend, audio) == ModelServer.TranscribeFileGuard(model, true, audio)
    ensures ModelServer.TranscribeFileGuard(model, false, audio) == Some(500)
  {
  }

  // ---------------------------------------------------------------------------------------
  // The server object

  /** `config.get(key, default)`. */
  function Get(config: Config.Config, key: string, default: Json.Value): Json.Value
  {
    if key in config then config[key] else default
  }

  /** The backend class `initialize` picks for `model_type`; `None` is an unsupported type. */
  function ModelKind(config: Config.Config): (k: Option<Kind>)
    ensures k.None? <==>
      Get(config, "model_type", Json.Str("faster-whisper")) !in [Json.Str("faster-whisper"), Json.Str("distil-whisper"), Json.Str("vosk")]
  {
    var t := Get(config, "model_type", Json.Str("faster-whisper"));
    if t == Json.Str("faster-whisper") then Some(FasterWhisper)
    else if t == Json.Str("distil-whisper") then Some(DistilWhisper)
    else if t == Json.Str("vosk") then Some(Vosk)
    else None
  }

  /** The model name each backend is built with. */
  function BackendModel(config: Config.Config, kind: Kind): Json.Value
  {
    match kind
    case DistilWhisper => Get(config, "distil_model_name", Json.Str("distil-whisper/distil-large-v3"))
    case _ => Get(config, "model_name", Json.Str("base.en"))
  }

  /** A configuration loaded from the defaults or from a file that is not a list always names
      a supported backend: the defaults name faster-whisper, and the validator only lets one
      of the three types through. */
  lemma LoadedConfigHasKind(d: Paths.Dirs, present: string -> bool, read: string -> Config.FileRead,
                            resolve: string -> string)
    requires Config.LoadAppConfig(d, present, read, resolve).Ok?
    requires !Config.HoldsList(Paths.GetConfigFile(d, present), present, read)
    ensures ModelKind(Config.LoadAppConfig(d, present, read, resolve).value).Some?
  {
    Config.LoadedChoicesValid(d, present, read, resolve);
    ChoiceHasKind(Config.LoadAppConfig(d, present, read, resolve).value);
  }

  /** A configuration whose `model_type` passes the choice check names a backend. */
  lemma ChoiceHasKind(c: Config.Config)
    requires Security.ChoiceOk(c, "model_type")
    ensures ModelKind(c).Some?
  {
    assert Security.CHOICES["model_type"] == ["faster-whisper", "distil-whisper", "vosk"];
  }

  /** The defaults give a faster-whisper backend with the model `base.en`. */
  lemma DefaultsPickWhisper(d: Paths.Dirs)
    ensures ModelKind(Config.CodeDefaults(d)) == Some(FasterWhisper)
    ensures BackendModel(Config.CodeDefaults(d), FasterWhisper) == Json.Str("base.en")
  {
    Config.DefaultsHold(d);
  }

  /** Why `initialize` raises: the configuration load, an unsupported model type
      (ValueError), or the backend's constructor (a missing package or model file, or a
      model that fails to load). */
  datatype InitFailure = LoadRaised(cause: Config.LoadFailure) | Unsupported | ConstructorRaised

  /** What `get_info` reports. */
  datatype Info = NotInitializedInfo | Ready(backend: Backend, modelType: Json.Value, modelName: Json.Value)

  class Server {
    var backend: Option<Backend>
    var config: Config.Config

    /** `ModelServer()`: no backend and an empty configuration. */
    constructor ()
      ensures backend.None? && config == map[]
    {
      backend := None;
      config := map[];
    }

    /** `initialize`. `loaded` is what `load_app_config()` gives (see `Config.LoadAppConfig`),
        `constructorRaises` whether building the chosen backend raises. The configuration is
        replaced as soon as it loads; the backend only when construction succeeds. */
    method Initialize(loaded: Result<Config.Config, Config.LoadFailure>,
                      constructorRaises: (Kind, Json.Value) -> bool) returns (r: Result<Kind, InitFailure>)
      modifies this
      ensures loaded.Err? ==> r == Err(LoadRaised(loaded.error)) && config == old(config)
      ensures loaded.Ok? ==> config == loaded.value
      ensures loaded.Ok? && ModelKind(loaded.value).None? ==> r == Err(Unsupported)
      ensures loaded.Ok? && ModelKind(loaded.value).Some? ==>
        var k := ModelKind(loaded.value).value;
        if constructorRaises(k, BackendModel(loaded.value, k)) then r == Err(ConstructorRaised)
        else r == Ok(k)
      ensures r.Ok? ==> backend == Some(Backend(r.value, BackendModel(config, r.value)))
      ensures r.Err? ==> backend == old(backend)
      ensures r.Ok? ==> Health() == 200
      ensures r.Err? ==> Health() == old(Health())
    {
      if loaded.Err? {
        return Err(LoadRaised(loaded.error));
      }
      config := loaded.value;
      var kind := ModelKind(config);
      if kind.None? {
        return Err(Unsupported);
      }
      var model := BackendModel(config, kind.value);
      if constructorRaises(kind.value, model) {
        return Err(ConstructorRaised);
      }
      backend := Some(Backend(kind.value, model));
      r := Ok(kind.value);
    }

    /** `get_info`. */
    function GetInfo(): (info: Info)
      reads this
      ensures info.NotInitializedInfo? <==> backend.None?
      ensures info.Ready? ==> info.backend == backend.value
    {
      match backend
      case None => NotInitializedInfo
      case Some(b) => Ready(b, Get(config, "model_type", Json.Null), Get(config, "model_name", Json.Null))
    }

    /** `health_check`: 200 when the status is "ready", 503 otherwise. */
    function Health(): (status: int)
      reads this
      ensures status == 200 <==> backend.Some?
      ensures status == 200 || status == 503
    {
      if GetInfo().Ready? then 200 else 503
    }

    /** The `/transcribe_stream` handler with its read loop and the backend's buffer loop. */
    method HandleTranscribeStream(body: seq<byte>, e: Engines) returns (r: ModelServer.Response)
      ensures r == StreamEndpoint(backend, body, e)
    {
      if backend.None? {
        return ModelServer.Response(500, None);
      }
      var (line, rest) := ModelServer.ReadLine(body);
      if line == [] {
        return ModelServer.Response(400, None);
      }
      var meta := ModelServer.MetadataRate(line);
      if meta.Err? {
        return ModelServer.Response(500, None);
      }
      var chunks := ReadPieces(rest);
      var t := StreamTranscription(backend.value, chunks, meta.value, e);
      if t.Err? {
        return ModelServer.Response(500, None);
      }
      r := ModelServer.Response(200, Some(t.value));
    }
  }
}
