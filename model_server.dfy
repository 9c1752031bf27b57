/** The model server of src/talkat/model_server.py: the `/transcribe_stream` wire format as
    the server reads it, the guards on the other endpoints, and the custom dictionary that
    `load_dictionary` and `update_dictionary` maintain. */
module ModelServer {
  import opened Wrappers
  import opened Seqs
  import opened Text
  import Paths
  import Json
  import Client
  import Record

  const PIECE: nat := 4096

  // ---------------------------------------------------------------------------------------
  // /transcribe_stream

  /** The index of the first newline byte, or `|b|` when there is none. */
  function NewlineAt(b: seq<byte>): (i: nat)
    ensures i <= |b| && NEWLINE !in b[..i]
    ensures i < |b| ==> b[i] == NEWLINE
  {
    if b == [] then 0 else if b[0] == NEWLINE then 0 else 1 + NewlineAt(b[1..])
  }

  /** `request.stream.readline()` and what remains of the stream: the bytes up to and including
      the first newline, or everything when there is none. */
  function ReadLine(b: seq<byte>): (r: (seq<byte>, seq<byte>))
    ensures r.0 + r.1 == b
    ensures r.0 == [] <==> b == []
  {
    var i := NewlineAt(b);
    if i == |b| then (b, []) else (b[..i + 1], b[i + 1..])
  }

  /** A line whose only newline is its last byte is read as a whole, whatever follows. */
  lemma {:induction false} ReadLineSplits(line: seq<byte>, rest: seq<byte>)
    requires |line| > 0 && line[|line| - 1] == NEWLINE && NEWLINE !in line[..|line| - 1]
    ensures ReadLine(line + rest) == (line, rest)
  {
    var b := line + rest;
    NewlineAtIs(b, |line| - 1);
    assert b[..|line|] == line && b[|line|..] == rest;
  }

  lemma {:induction false} NewlineAtIs(b: seq<byte>, i: nat)
    requires i < |b| && b[i] == NEWLINE && NEWLINE !in b[..i]
    ensures NewlineAt(b) == i
  {
    if i > 0 {
      assert b[0] == b[..i][0];
      assert b[1..][..i - 1] == b[..i][1..];
      NewlineAtIs(b[1..], i - 1);
    }
  }

  /** `int(value)` for a JSON value, as a rate: `Err(400)` is the ValueError of a string that
      is not an integer, `Err(500)` the TypeError of a value `int()` does not take. */
  function IntOf(v: Json.Value): (r: Result<int, int>)
    ensures r.Err? ==> r.error == 400 || r.error == 500
    ensures r.Ok? <==> Json.ToInt(v).Ok?
    ensures r.Ok? ==> r.value == Json.ToInt(v).value
  {
    match Json.ToInt(v)
    case Ok(i) => Ok(i)
    case Err(NotANumber) => Err(400)
    case Err(WrongType) => Err(500)
  }

  /** The metadata handling: decode, strip, `json.loads`, `["rate"]` and `int()`. A decoding or
      JSON error, a missing key and a bad integer string give 400, as the handler's own
      `except` catches them; subscripting or converting a value of the wrong type raises a
      TypeError that reaches the outer handler and gives 500. */
  function MetadataRate(line: seq<byte>): (r: Result<int, int>)
    ensures r.Err? ==> r.error == 400 || r.error == 500
  {
    match DecodeAscii(line)
    case None => Err(400)
    case Some(text) =>
      match Json.Loads(Strip(text))
      case None => Err(400)
      case Some(v) =>
        if !v.Object? then Err(500)
        else if "rate" !in v.fields then Err(400)
        else IntOf(v.fields["rate"])
  }

  /** What a handler sends back: the status and, on success, the `text` field. */
  datatype Response = Response(status: int, text: Option<string>)

  /** The number of `read(4096)` calls that drain `n` bytes: one per 4096-byte piece and the
      final empty read. */
  function Reads(n: nat): nat
  {
    (n + PIECE - 1) / PIECE + 1
  }

  /** Whether the client goes away while the audio is read: `failAt` is the index of the
      `read(4096)` call that raises OSError or ValueError (`None`: none does). */
  predicate Disconnects(failAt: Option<nat>, n: nat)
  {
    failAt.Some? && failAt.value < Reads(n)
  }

  /** `transcribe_audio_stream`. `model` is `MODEL_TYPE` when a model is loaded; `failAt` is
      when a read of the audio raises; `whisper` transcribes the audio (`None` when it
      raises), and `vosk` runs a recogniser at the given rate over the audio. A read error is
      the "Client disconnected" 499 in the faster-whisper loop, and reaches the outer handler
      as 500 in the Vosk loop. */
  function TranscribeStream(model: Option<string>, body: seq<byte>, failAt: Option<nat>,
                            whisper: seq<byte> -> Option<string>, vosk: (int, seq<byte>) -> Option<string>): (r: Response)
    ensures model.None? ==> r.status == 500
    ensures model.Some? && body == [] ==> r.status == 400
    ensures r.status == 499 <==>
      model == Some("faster-whisper") && ReadLine(body).0 != [] && MetadataRate(ReadLine(body).0).Ok? &&
      Disconnects(failAt, |ReadLine(body).1|)
    ensures r.status == 200 <==> r.text.Some?
    ensures r.text.Some? ==> Strip(r.text.value) == r.text.value
  {
    if model.None? then Response(500, None)
    else
      var (line, rest) := ReadLine(body);
      if line == [] then Response(400, None)
      else match MetadataRate(line)
        case Err(code) => Response(code, None)
        case Ok(rate) =>
          if model.value == "vosk" then
            if Disconnects(failAt, |rest|) then Response(500, None)
            else match vosk(rate, rest)
              case None => Response(500, None)
              case Some(t) => StripIdempotent(t); Response(200, Some(Strip(t)))
          else if model.value == "faster-whisper" then
            if Disconnects(failAt, |rest|) then Response(499, None)
            else if rest == [] then Response(200, Some(""))
            else match whisper(rest)
              case None => Response(500, None)
              case Some(t) => StripIdempotent(t); Response(200, Some(Strip(t)))
          else Response(500, None)
  }

  /** The faster-whisper read loop: `read(4096)` until it returns nothing, extending the
      buffer, or until the read numbered `failAt` raises. Without a failure the buffer ends
      up holding the rest of the stream in order, after one read per 4096-byte piece and the
      final empty read. */
  method ReadBody(stream: seq<byte>, failAt: Option<nat>) returns (buffer: seq<byte>, count: nat, failed: bool)
    ensures failed <==> Disconnects(failAt, |stream|)
    ensures !failed ==> buffer == stream && count == Reads(|stream|)
  {
    buffer := [];
    count := 0;
    failed := false;
    var pos := 0;
    while pos < |stream|
      invariant 0 <= pos <= |stream| && buffer == stream[..pos]
      invariant pos == |stream| || pos % PIECE == 0
      invariant count == (pos + PIECE - 1) / PIECE
      invariant failAt.Some? ==> failAt.value >= count
    {
      if failAt == Some(count) {
        ReadsGrow(pos, |stream|);
        return buffer, count, true;
      }
      var n := if |stream| - pos < PIECE then |stream| - pos else PIECE;
      var chunk := stream[pos..pos + n];
      assert stream[..pos + n] == stream[..pos] + chunk;
      buffer := buffer + chunk;
      pos := pos + n;
      count := count + 1;
    }
    if failAt == Some(count) {
      return buffer, count, true;
    }
    count := count + 1;
  }

  lemma ReadsGrow(m: nat, n: nat)
    requires m <= n
    ensures (m + PIECE - 1) / PIECE < Reads(n)
  {
  }

  /** The handler with its read loop; it answers as `TranscribeStream` says. */
  method HandleTranscribeStream(model: Option<string>, body: seq<byte>, failAt: Option<nat>,
                                whisper: seq<byte> -> Option<string>, vosk: (int, seq<byte>) -> Option<string>)
    returns (r: Response)
    ensures r == TranscribeStream(model, body, failAt, whisper, vosk)
  {
    if model.None? {
      return Response(500, None);
    }
    var (line, rest) := ReadLine(body);
    if line == [] {
      return Response(400, None);
    }
    var meta := MetadataRate(line);
    if meta.Err? {
      return Response(meta.error, None);
    }
    if model.value == "vosk" {
      if Disconnects(failAt, |rest|) {
        return Response(500, None);
      }
      var t := vosk(meta.value, rest);
      if t.None? {
        return Response(500, None);
      }
      StripIdempotent(t.value);
      return Response(200, Some(Strip(t.value)));
    }
    if model.value != "faster-whisper" {
      return Response(500, None);
    }
    var audio, _, failed := ReadBody(rest, failAt);
    if failed {
      return Response(499, None);
    }
    if audio == [] {
      return Response(200, Some(""));
    }
    var t := whisper(audio);
    if t.None? {
      return Response(500, None);
    }
    StripIdempotent(t.value);
    r := Response(200, Some(Strip(t.value)));
  }

  /** The metadata line decodes to the JSON text followed by its newline. */
  lemma MetadataLineDecodes(rate: int)
    ensures DecodeAscii(Client.MetadataLine(rate)) == Some(Json.RateText(rate) + "\n")
  {
    var text := Json.RateText(rate);
    Json.RateTextAscii(rate);
    assert EncodeAscii(text + "\n") == Client.MetadataLine(rate);
    DecodeEncode(text + "\n");
  }

  /** Stripping the decoded line leaves the JSON text. */
  lemma MetadataTextStrips(rate: int)
    ensures Strip(Json.RateText(rate) + "\n") == Json.RateText(rate)
  {
    Json.RateTextShape(rate);
    StripTrailingNewline(Json.RateText(rate));
  }

  /** The metadata line the client writes gives the server its rate. */
  lemma MetadataLineRate(rate: int)
    ensures MetadataRate(Client.MetadataLine(rate)) == Ok(rate)
  {
    MetadataLineDecodes(rate);
    MetadataTextStrips(rate);
    Json.RateTextLoads(rate);
    assert IntOf(Json.Int(rate)) == Ok(rate);
  }

  /** The server reads the client's body back: the metadata line gives the rate, and the
      audio is exactly the chunks the client sent, in order. */
  lemma StreamRoundTrip(rate: int, rest: seq<Record.Item>, stopAt: Option<nat>)
    ensures var body := Client.ListenBody(rate, rest, stopAt);
      ReadLine(body) == (Client.MetadataLine(rate), Concat(Client.SentChunks(Client.Pulled(rest, stopAt)))) &&
      MetadataRate(ReadLine(body).0) == Ok(rate)
  {
    Client.MetadataLineShape(rate);
    ReadLineSplits(Client.MetadataLine(rate), Concat(Client.SentChunks(Client.Pulled(rest, stopAt))));
    MetadataLineRate(rate);
  }

  /** How the client sees a response: 200 carries `{"text": ...}`; any other status makes
      `raise_for_status` raise, a `RequestException`. */
  function AsReply(r: Response): Client.Reply
  {
    if r.status == 200 && r.text.Some? then Client.Replied(Json.Object(map["text" := Json.Str(r.text.value)]))
    else Client.RequestFailed
  }

  /** A faster-whisper server that reads the client's body to its end answers it with the
      transcription of exactly the audio sent, or "" when none was sent. */
  lemma WhisperAnswers(rate: int, rest: seq<Record.Item>, stopAt: Option<nat>, whisper: seq<byte> -> Option<string>,
                       vosk: (int, seq<byte>) -> Option<string>)
    ensures var audio := Concat(Client.SentChunks(Client.Pulled(rest, stopAt)));
      TranscribeStream(Some("faster-whisper"), Client.ListenBody(rate, rest, stopAt), None, whisper, vosk) ==
        if audio == [] then Response(200, Some(""))
        else if whisper(audio).None? then Response(500, None)
        else Response(200, Some(Strip(whisper(audio).value)))
  {
    StreamRoundTrip(rate, rest, stopAt);
  }

  /** The client's view of `WhisperAnswers`. */
  lemma WhisperReply(rate: int, rest: seq<Record.Item>, stopAt: Option<nat>, whisper: seq<byte> -> Option<string>,
                     vosk: (int, seq<byte>) -> Option<string>)
    ensures var audio := Concat(Client.SentChunks(Client.Pulled(rest, stopAt)));
      var reply := AsReply(TranscribeStream(Some("faster-whisper"), Client.ListenBody(rate, rest, stopAt), None, whisper, vosk));
      (audio == [] ==> reply == Client.Replied(Json.Object(map["text" := Json.Str("")]))) &&
      (audio != [] && whisper(audio).None? ==> reply == Client.RequestFailed) &&
      (audio != [] && whisper(audio).Some? ==> reply == Client.Replied(Json.Object(map["text" := Json.Str(Strip(whisper(audio).value))])))
  {
    WhisperAnswers(rate, rest, stopAt, whisper, vosk);
  }

  /** A `listen` run whose server replies with a text field ends with 0 and that text, unless
      the steps after a non-empty text raise. */
  lemma ListenGetsText(items: seq<Record.Item>, stopAt: Option<nat>, server: seq<byte> -> Client.Reply, save: bool,
                       afterFails: bool, t: string)
    requires items != [] && items[0].Rate? && Strip(t) == t
    requires server(Client.ListenBody(items[0].hz, items[1..], stopAt)) == Client.Replied(Json.Object(map["text" := Json.Str(t)]))
    ensures Client.ListenRun(items, false, stopAt, server, save, afterFails).code == if t != "" && afterFails then 1 else 0
    ensures Client.ListenRun(items, false, stopAt, server, save, afterFails).code == 0 ==>
      Client.ListenRun(items, false, stopAt, server, save, afterFails).text == t
  {
    assert Client.ResponseText(Json.Object(map["text" := Json.Str(t)])) == Some(t);
  }

  /** A `listen` run whose request fails ends with 1. */
  lemma ListenRequestFails(items: seq<Record.Item>, stopAt: Option<nat>, server: seq<byte> -> Client.Reply, save: bool,
                           afterFails: bool)
    requires items != [] && items[0].Rate?
    requires server(Client.ListenBody(items[0].hz, items[1..], stopAt)) == Client.RequestFailed
    ensures Client.ListenRun(items, false, stopAt, server, save, afterFails).code == 1
  {
  }

  /** The client's `requests.post` against a server with faster-whisper loaded, the whole body
      arriving. */
  function WhisperServer(whisper: seq<byte> -> Option<string>, vosk: (int, seq<byte>) -> Option<string>): seq<byte> -> Client.Reply
  {
    (body: seq<byte>) => AsReply(TranscribeStream(Some("faster-whisper"), body, None, whisper, vosk))
  }

  /** Against a server with faster-whisper loaded, a `listen` run that got a rate from the
      recorder ends with 0 and the server's text: "" for a body with no audio, otherwise the
      stripped transcription of exactly the chunks sent, unless the model raised or the steps
      after a non-empty text raised. */
  lemma ListenAgainstServer(items: seq<Record.Item>, stopAt: Option<nat>, whisper: seq<byte> -> Option<string>,
                            vosk: (int, seq<byte>) -> Option<string>, save: bool, afterFails: bool)
    requires items != [] && items[0].Rate?
    ensures var audio := Concat(Client.SentChunks(Client.Pulled(items[1..], stopAt)));
      EndsAs(Client.ListenRun(items, false, stopAt, WhisperServer(whisper, vosk), save, afterFails), audio, whisper(audio), afterFails)
  {
    var audio := Concat(Client.SentChunks(Client.Pulled(items[1..], stopAt)));
    WhisperServerAnswers(items[0].hz, items[1..], stopAt, whisper, vosk);
    ListenAgainstReply(items, stopAt, WhisperServer(whisper, vosk), save, afterFails, audio, whisper(audio));
  }

  lemma WhisperServerAnswers(rate: int, rest: seq<Record.Item>, stopAt: Option<nat>, whisper: seq<byte> -> Option<string>,
                             vosk: (int, seq<byte>) -> Option<string>)
    ensures var audio := Concat(Client.SentChunks(Client.Pulled(rest, stopAt)));
      AnswersAs(WhisperServer(whisper, vosk)(Client.ListenBody(rate, rest, stopAt)), audio, whisper(audio))
  {
    var body := Client.ListenBody(rate, rest, stopAt);
    WhisperReply(rate, rest, stopAt, whisper, vosk);
    assert WhisperServer(whisper, vosk)(body) == AsReply(TranscribeStream(Some("faster-whisper"), body, None, whisper, vosk));
  }

  /** How a `listen` run ends when `audio` was sent and the model gave `w`: 0 and "" for no
      audio, 0 and the stripped transcription, or 1 when the model raised or the steps after
      a non-empty text raised. */
  predicate EndsAs(r: Client.ListenOutcome, audio: seq<byte>, w: Option<string>, afterFails: bool)
  {
    (audio == [] ==> r.code == 0 && r.text == "") &&
    (audio != [] && w.Some? ==>
      if Strip(w.value) != "" && afterFails then r.code == 1 else r.code == 0 && r.text == Strip(w.value)) &&
    (audio != [] && w.None? ==> r.code == 1)
  }

  /** The reply a faster-whisper server gives when `audio` was sent and the model gave `w`. */
  predicate AnswersAs(reply: Client.Reply, audio: seq<byte>, w: Option<string>)
  {
    (audio == [] ==> reply == Client.Replied(Json.Object(map["text" := Json.Str("")]))) &&
    (audio != [] && w.None? ==> reply == Client.RequestFailed) &&
    (audio != [] && w.Some? ==> reply == Client.Replied(Json.Object(map["text" := Json.Str(Strip(w.value))])))
  }

  /** The same over any server whose reply to the body follows the faster-whisper outcome `w`
      for the audio sent. */
  lemma ListenAgainstReply(items: seq<Record.Item>, stopAt: Option<nat>, server: seq<byte> -> Client.Reply, save: bool,
                           afterFails: bool, audio: seq<byte>, w: Option<string>)
    requires items != [] && items[0].Rate?
    requires AnswersAs(server(Client.ListenBody(items[0].hz, items[1..], stopAt)), audio, w)
    ensures EndsAs(Client.ListenRun(items, false, stopAt, server, save, afterFails), audio, w, afterFails)
  {
    if audio == [] {
      ListenGetsText(items, stopAt, server, save, afterFails, "");
    } else if w.Some? {
      StripIdempotent(w.value);
      ListenGetsText(items, stopAt, server, save, afterFails, Strip(w.value));
    } else {
      ListenRequestFails(items, stopAt, server, save, afterFails);
    }
  }

  // ---------------------------------------------------------------------------------------
  // Guards

  /** `/transcribe`: 500 without a model, 400 when the JSON body is missing or empty or lacks
      `audio_data_b64` or `rate`; otherwise the request goes on to decoding. */
  function TranscribeGuard(model: Option<string>, data: Option<map<string, Json.Value>>): (r: Option<int>)
    ensures r.None? <==> model.Some? && data.Some? && "audio_data_b64" in data.value && "rate" in data.value
    ensures r.Some? ==> (r.value == 500 <==> model.None?) && (r.value == 400 || r.value == 500)
  {
    if model.None? then Some(500)
    else if data.None? || data.value == map[] || "audio_data_b64" !in data.value || "rate" !in data.value then Some(400)
    else None
  }

  /** The `audio` part of a `/transcribe_file` upload: absent, with an empty file name, or a
      named file. */
  datatype AudioPart = NoAudio | EmptyFilename | AudioFile(filename: string)

  /** `/transcribe_file`: 500 without a model or without librosa, 400 without an `audio` file
      or with an empty file name; otherwise the upload goes on to decoding. */
  function TranscribeFileGuard(model: Option<string>, librosa: bool, audio: AudioPart): (r: Option<int>)
    ensures r.None? <==> model.Some? && librosa && audio.AudioFile? && audio.filename != ""
    ensures r.Some? ==> (r.value == 500 <==> model.None? || !librosa) && (r.value == 400 || r.value == 500)
  {
    if model.None? || !librosa then Some(500)
    else if audio.NoAudio? || audio.EmptyFilename? || audio.filename == "" then Some(400)
    else None
  }

  // ---------------------------------------------------------------------------------------
  // The dictionary

  /** `[line.strip() for line in lines if line.strip()]`. */
  function KeepWords(lines: seq<string>): (words: seq<string>)
    ensures |words| <= |lines|
    ensures forall k | 0 <= k < |words| :: words[k] != "" && Strip(words[k]) == words[k]
  {
    if lines == [] then []
    else
      var w := Strip(lines[0]);
      StripIdempotent(lines[0]);
      (if w != "" then [w] else []) + KeepWords(lines[1..])
  }

  /** Reading a file in text mode turns "\r\n" and a lone "\r" into "\n". */
  function Universal(s: string): (r: string)
    ensures '\r' !in s ==> r == s
  {
    if s == [] then []
    else if s[0] == '\r' then
      "\n" + Universal(if |s| > 1 && s[1] == '\n' then s[2..] else s[1..])
    else [s[0]] + Universal(s[1..])
  }

  /** The words `load_dictionary` reads from a file's content: one per line, stripped,
      blank lines dropped. */
  function FileWords(content: string): seq<string>
  {
    KeepWords(Split(Universal(content), '\n'))
  }

  /** Where an upload ends up: no `dictionary` field, an empty file name, content that is not
      UTF-8, or the decoded text. */
  datatype Upload = NoFile | EmptyName | Undecodable | Uploaded(content: string)

  /** `Strip` keeps a character only if the string had it. */
  lemma StripSub(s: string, c: char)
    requires c !in s
    ensures c !in Strip(s)
  {
    var l := LStrip(s);
    LStripSuffix(s);
    assert forall k | 0 <= k < |l| :: l[k] == s[|s| - |l| + k];
    var r := RStrip(l);
    RStripPrefix(l);
    assert forall k | 0 <= k < |r| :: r[k] == l[k];
  }

  lemma {:induction false} KeepWordsFree(lines: seq<string>, c: char)
    requires forall k | 0 <= k < |lines| :: c !in lines[k]
    ensures forall k | 0 <= k < |KeepWords(lines)| :: c !in KeepWords(lines)[k]
  {
    if lines != [] {
      StripSub(lines[0], c);
      KeepWordsFree(lines[1..], c);
      assert forall k | 1 <= k < |lines| :: lines[1..][k - 1] == lines[k];
    }
  }

  /** Words that are already stripped and non-empty are kept as they are. */
  lemma {:induction false} KeepWordsFixed(words: seq<string>)
    requires forall k | 0 <= k < |words| :: words[k] != "" && Strip(words[k]) == words[k]
    ensures KeepWords(words) == words
  {
    if words != [] {
      KeepWordsFixed(words[1..]);
    }
  }

  lemma {:induction false} JoinFree(parts: seq<string>, sep: string, c: char)
    requires c !in sep && forall k | 0 <= k < |parts| :: c !in parts[k]
    ensures c !in Join(parts, sep)
  {
    if |parts| > 1 {
      JoinFree(parts[1..], sep, c);
    }
  }

  /** `os.path.dirname`: everything before the last "/", with the trailing run of "/" dropped
      unless that would leave nothing (of "/words.txt" it is "/"); "" when there is no "/". */
  function DirName(p: string): (d: string)
    ensures d == "" <==> '/' !in p
    ensures |d| <= |p|
  {
    if '/' !in p then ""
    else
      var i := LastSlash(p, |p|);
      var head := p[..i + 1];
      if Paths.TrimSlashes(head) == "" then head else Paths.TrimSlashes(head)
  }

  /** A file directly inside a directory has that directory as its directory part. */
  lemma DirNameOfChild(dir: string, name: string)
    requires dir != [] && dir[|dir| - 1] != '/' && '/' !in name
    ensures DirName(dir + "/" + name) == dir
  {
    var p := dir + "/" + name;
    assert p[|dir|] == '/';
    var i := LastSlash(p, |p|);
    if i != |dir| {
      assert false;
    }
    assert i == |dir| && '/' in p;
    var head := dir + "/";
    assert p[..i + 1] == head;
    assert head[..|head| - 1] == dir;
    assert Paths.TrimSlashes(head) == Paths.TrimSlashes(dir) == dir;
  }

  /** The index of the last "/" among the first `n` characters. */
  function LastSlash(p: string, n: nat): (i: nat)
    requires n <= |p| && '/' in p[..n]
    ensures i < n && p[i] == '/' && '/' !in p[i + 1..n]
  {
    if p[n - 1] == '/' then n - 1
    else
      assert p[..n] == p[..n - 1] + [p[n - 1]];
      LastSlash(p, n - 1)
  }

  /** The server's state: the loaded model type (`None` while `MODEL` is unset), the global
      `DICTIONARY_WORDS`, and the files on disk by expanded path. */
  class Server {
    var model: Option<string>
    var words: seq<string>
    var disk: map<string, string>

    constructor (model: Option<string>, disk: map<string, string>)
      ensures this.model == model && this.words == [] && this.disk == disk
    {
      this.model := model;
      this.words := [];
      this.disk := disk;
    }

    /** `load_dictionary`: [] without a configured path, when the file is missing, or when
        opening or decoding it raises (`readFails`, caught by its `except Exception`), and then
        `DICTIONARY_WORDS` keeps its value; otherwise the file's words, which become
        `DICTIONARY_WORDS`. */
    method LoadDictionary(path: Option<string>, readFails: bool) returns (ws: seq<string>)
      modifies this`words
      ensures path.None? || path.value == "" || path.value !in disk || readFails ==> ws == [] && words == old(words)
      ensures path.Some? && path.value != "" && path.value in disk && !readFails ==>
        ws == FileWords(disk[path.value]) && words == ws
    {
      if path.None? || path.value == "" || path.value !in disk || readFails {
        return [];
      }
      ws := FileWords(disk[path.value]);
      words := ws;
    }

    /** `update_dictionary`: 400 for a missing, unnamed, undecodable or wordless upload; 500
        without a configured path, for a path with no directory part (`os.makedirs("")`
        raises), or when creating the directory or writing the file raises (`writeFails`),
        all leaving the state alone; otherwise the words are saved one per line, become
        `DICTIONARY_WORDS`, and their count is returned with 200. */
    method UpdateDictionary(upload: Upload, path: Option<string>, writeFails: bool) returns (status: int, count: nat)
      modifies this`words, this`disk
      ensures status == 200 || status == 400 || status == 500
      ensures status != 200 ==> words == old(words) && disk == old(disk)
      ensures status == 400 <==> !upload.Uploaded? || KeepWords(Split(upload.content, '\n')) == []
      ensures status == 200 <==>
        status != 400 && path.Some? && path.value != "" && DirName(path.value) != "" && !writeFails
      ensures status == 200 ==>
        words == KeepWords(Split(upload.content, '\n')) && count == |words| && count > 0 &&
        path.Some? && disk == old(disk)[path.value := Join(words, "\n")]
    {
      if !upload.Uploaded? {
        return 400, 0;
      }
      var ws := KeepWords(Split(upload.content, '\n'));
      if ws == [] {
        return 400, 0;
      }
      if path.None? || path.value == "" {
        return 500, 0;
      }
      if DirName(path.value) == "" || writeFails {
        return 500, 0;
      }
      disk := disk[path.value := Join(ws, "\n")];
      words := ws;
      return 200, |ws|;
    }

    /** `get_initial_prompt`. */
    function InitialPrompt(): (p: Option<string>)
      reads this
      ensures p.None? <==> words == []
      ensures p.Some? ==> p.value == Join(words, ", ")
    {
      if words == [] then None else Some(Join(words, ", "))
    }

    /** `/health`. */
    function Health(): (status: int)
      reads this
      ensures status == 200 <==> model.Some?
      ensures status == 200 || status == 500
    {
      if model.Some? then 200 else 500
    }

    /** `/dictionary` GET: the words and their count. */
    function DictionaryReport(): (r: (seq<string>, nat))
      reads this
      ensures r.0 == words && r.1 == |r.0|
    {
      (words, |words|)
    }
  }

  /** What `update_dictionary` saves, `load_dictionary` reads back as the same words, as long
      as no word has a carriage return inside it. */
  lemma DictionaryRoundTrip(content: string)
    requires var ws := KeepWords(Split(content, '\n')); ws != [] && forall k | 0 <= k < |ws| :: '\r' !in ws[k]
    ensures FileWords(Join(KeepWords(Split(content, '\n')), "\n")) == KeepWords(Split(content, '\n'))
  {
    var lines := Split(content, '\n');
    var ws := KeepWords(lines);
    forall k | 0 <= k < |lines| ensures '\n' !in lines[k] {
      SplitPiecesFree(content, '\n', k);
    }
    KeepWordsFree(lines, '\n');
    JoinFree(ws, "\n", '\r');
    var saved := Join(ws, "\n");
    assert Universal(saved) == saved;
    JoinSplit(ws, '\n');
    KeepWordsFixed(ws);
  }

  /** A word with a carriage return inside comes back as two: the round trip needs the
      condition above. */
  lemma CarriageReturnSplits()
    ensures KeepWords(Split("a\rb", '\n')) == ["a\rb"]
    ensures FileWords(Join(["a\rb"], "\n")) == ["a", "b"]
  {
    var s := "a\rb";
    assert IndexOf(s, '\n') == 3;
    StripNoEdgeSpace(s);
    assert Join(["a\rb"], "\n") == s;
    UniversalSplitsWord();
    NewlineSplitsWord();
    StripNoEdgeSpace("a");
    StripNoEdgeSpace("b");
  }

  lemma UniversalSplitsWord()
    ensures Universal("a\rb") == "a\nb"
  {
    var s := "a\rb";
    assert Universal("b") == "b";
    assert s[1..] == "\rb" && s[1..][1..] == "b";
  }

  lemma NewlineSplitsWord()
    ensures Split("a\nb", '\n') == ["a", "b"]
  {
    var u := "a\nb";
    assert IndexOf(u, '\n') == 1;
    assert u[..1] == "a" && u[2..] == "b";
    assert IndexOf("b", '\n') == 1;
  }
}
