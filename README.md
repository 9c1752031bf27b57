# talkat in Dafny

A model of talkat, a local voice-dictation tool, with proofs about the model. Its parts:

- **Recorder** (`src/talkat/record.py`, `src/talkat/record_improved.py`):
  - reads fixed-size audio chunks from a microphone;
  - smooths their volume over a three-chunk window;
  - cuts speech out of the stream with a silence-based detector, keeping a short pre-speech buffer;
  - either returns the recording or yields it chunk by chunk;
  - calibrates the silence threshold from a percentile of measured volumes.
- **Client** (`src/talkat/main.py`): streams a metadata line and then the audio to the model server, and handles the reply. It runs:
  - "listen", a single utterance that is typed and saved;
  - long dictation, with a transcript file and a clipboard copy at the end;
  - calibration.
- **Model servers** (`src/talkat/model_server.py`, `src/talkat/model_server_v2.py`):
  - the HTTP endpoints `/transcribe`, `/transcribe_stream`, `/transcribe_file`, `/health` and `/dictionary`;
  - in the second server, the three recognition backends and the server object that picks one from the configuration.
- **Long dictation** (`src/talkat/long_dictation.py`): the enhanced long-dictation session, its statistics and its loop.
- **File processing** (`src/talkat/file_processor.py`): transcription of audio files, single and batch, and the text, JSON, SRT and WebVTT outputs.
- **Process management** (`src/talkat/process_manager.py`, `src/talkat/cli.py`):
  - PID files and lock files;
  - probing, starting, stopping and toggling background processes;
  - signal handling;
  - the command-line dispatch.
- **Configuration** (`src/talkat/config.py`, `src/talkat/paths.py`, `src/talkat/security.py`):
  - the XDG directory layout;
  - loading and saving the configuration;
  - the validators for ports, model names, commands, clipboard and typing text, audio parameters, file paths and configuration maps.
- **Devices** (`src/talkat/devices.py`): microphone selection.

Each source file is one module. These modules are:

- `Record`, `RecordImproved`, `Client` (main.py), `ModelServer`, `ModelServerV2`, `LongDictation`;
- `FileProcessor`, `ProcessManager`, `Cli`, `Config`, `Paths`, `Security`, `Devices`.

Four more modules hold the pieces of Python and JSON the code relies on:

- `Wrappers`: `Option` and `Result`;
- `Seqs`: sequence helpers;
- `Text`: `str.strip`, `split`, `join`, `int()` and `str()` on integers, ASCII encoding;
- `Json`: the JSON values the program exchanges, `json.loads` on the metadata line, `int()` and `float()` on values.

How the model is built:

- **Loops.** Functions that loop in the source are methods. Each is proved equal to a recursive specification function, and the properties are proved about that function.
- **Objects updated in place** are classes:
  - the dictation session;
  - the process manager, together with the operating system it acts on;
  - both model servers' global state.
- **Outside the program.** Microphones, files, processes, clocks, HTTP peers and recognisers are parameters of the model.

## Model

| member | source | states |
|---|---|---|
| Record.WindowMeanIsMean | src/talkat/record.py:313-316 | the smoothed volume times the number of volumes in the window (one to three) is their sum, i.e. it is their mean |
| Record.CountedWithinLimit | src/talkat/record.py:285-292 | the read loop never counts more chunks than `max_total_chunks` |
| Record.OverflowSkipped | src/talkat/record.py:290-297 | an input-overflow read is skipped without counting: removing it changes nothing the loop sees |
| Record.FailureEnds | src/talkat/record.py:293-299 | any other read error ends the loop: nothing read after it is processed |
| Record.HistoryAfter | src/talkat/record.py:312-316 | the volume history after each chunk is the last three volumes seen so far |
| Record.MeanAtIsHistory | src/talkat/record.py:312-316 | the smoothed volume at each chunk is the mean of the last (up to) three volumes read so far |
| Record.LoudWhileWaiting | src/talkat/record.py:327-335 | the first loud chunk starts speech, releases the pre-speech buffer before the chunk itself, and (streaming variant only) clears the buffer |
| Record.SpeakingPhase | src/talkat/record.py:337-350 | while speaking every chunk is kept, loud ones reset the silence count, and the run stops right after the quiet chunk that makes the count exceed the bound |
| Record.WaitingPhase | src/talkat/record.py:351-353 | before speech, quiet chunks only fill the bounded pre-speech buffer; what follows is the reference segment from that point |
| Record.FirstLoudIsFirst | src/talkat/record.py:327-331 | the trigger chunk of the reference segment is the first loud chunk and every chunk before it is quiet |
| Record.VadRunIsSegment | src/talkat/record.py:544-576 | both loop variants (the recorder's and the generator's) produce the same reference segment from the same chunks |
| Record.SegmentShape | src/talkat/record.py:327-335 | the segment is empty exactly when no chunk is loud; otherwise the first loud chunk sits right after at most `padChunks` released chunks |
| Record.StreamAudioWithVad | src/talkat/record.py:396-587 | the generator, as a loop, yields exactly the items of the stream specification; it raises exactly when the notice about a failed open is rejected, or when the stream opened and the set-up after the rate fails |
| Record.StreamChunk | src/talkat/record.py:544-576 | one chunk of the generator yields, updates the detector and decides to stop exactly as one step of the stream specification |
| Record.StreamLoopSegments | src/talkat/record.py:508-576 | in VAD mode the generator's loop yields the segmenter's output on the counted non-empty chunks |
| Record.StreamLoopNoVad | src/talkat/record.py:544-546 | in no-VAD mode every counted non-empty chunk is yielded, in read order |
| Record.StreamYields | src/talkat/record.py:439-587 | nothing is yielded without a microphone or an open stream; without a microphone nothing raises, and a failed open raises exactly when its exception text is not a safe argument; otherwise the rate 16000 first; then a zero chunk or a negative padding count raises; otherwise the audio of the no-VAD stream (threshold 0) or of the reference segment, with no error |
| Record.NoticeRaisesMeans | src/talkat/record.py:463-470 | the notice about a failed open is rejected by the command check exactly when the exception text holds a shell metacharacter or a backslash before `n` or `r` |
| Record.MissingDeviceNoticeRaises | src/talkat/record.py:250-259 | the notice for PortAudio's "Invalid input device (no default output device)" error is rejected, so the recorder raises instead of returning None |
| Record.StreamSetUp | src/talkat/record.py:411-490 | a chunk length of 0 ms always makes the set-up raise; with a positive one a padding of zero or more never does, and one a whole chunk below zero always does |
| Record.RecordAudioWithVad | src/talkat/record.py:195-392 | the recorder, as a loop with its segment list, returns exactly the recording specification, including the SecurityError of a rejected open notice and the ValueError of a negative padding count |
| Record.RecordChunk | src/talkat/record.py:327-353 | one chunk of the recorder appends to the segment, updates the detector and decides to stop exactly as one step of the recording specification, and never sets the streaming-only padded flag |
| Record.RecordLoopSegments | src/talkat/record.py:288-353 | the chunks the recorder appends to its segment are the segmenter's output on the counted non-empty chunks |
| Record.RecordReturns | src/talkat/record.py:227-392 | the recorder returns None without a microphone; after a failed open, None when the exception text is a safe argument and the SecurityError otherwise; a ValueError when the stream opened with a negative padding count; otherwise None exactly when no chunk is loud, and else the joined reference segment at 16000 Hz |
| Record.RecordSetUp | src/talkat/record.py:274-275 | a padding of zero or more never makes `deque(maxlen=...)` raise, and one of a chunk's length below zero or further always does |
| Record.SegmentJoinEmpty | src/talkat/record.py:383-388 | when every kept chunk is non-empty, the joined recording is empty exactly when no chunk was kept, so the second emptiness check never fires |
| Record.ClampBounds | src/talkat/record.py:160-192 | the calibrated threshold always lies in [50, 5000], and equals the 95th percentile when that lies within both bounds |
| Record.CalibrateMicrophone | src/talkat/record.py:39-192 | the calibration loop returns exactly the calibration specification (fallback, the ZeroDivisionError of a zero chunk size, read error or clamped percentile) |
| Record.CalibrationBounds | src/talkat/record.py:68-135 | the fallback without a microphone or an open stream; once open, a zero chunk size raises ZeroDivisionError and no chunk to read gives the fallback; a read error exactly when a read is missing or fails; any other success is in [50, 5000] and is the 95th percentile when that is within bounds |
| Record.ChunksToRead | src/talkat/record.py:102 | the chunk count fails with ZeroDivisionError exactly for a zero chunk size |
| Record.Calibration | src/talkat/record.py:39-135 | calibration as a specification function; its properties are stated by Record.CalibrationBounds |
| Record.Segment | src/talkat/record.py:327-353 | the reference segment of a chunk sequence; its properties are stated by Record.SegmentShape, Record.FirstLoudIsFirst and Record.VadRunIsSegment |
| RecordImproved.CalibrateMicrophone | src/talkat/record_improved.py:14-129 | the alternative calibration loop returns exactly its specification |
| RecordImproved.ImprovedBounds | src/talkat/record_improved.py:37-129 | every result, the 500.0 fallback included, lies in [50, 1000], and equals 2.5 times the 90th percentile when that is already in range |
| Json.RateTextLoads | src/talkat/main.py:243-246 | the metadata text the client writes is read back by `json.loads` as the one-member object `{"rate": rate}` |
| Json.Loads | src/talkat/model_server.py:296 | `json.loads` on the subset the program exchanges; Json.RateTextLoads states the round trip of the metadata line |
| Client.MetadataLineShape | src/talkat/main.py:245-246 | the metadata line ends with its only newline, and the bytes before it decode to the JSON text |
| Client.SentChunksNonEmpty | src/talkat/main.py:252-253 | every chunk the body passes on is non-empty, and they are exactly the non-empty audio chunks in order |
| Client.ListenBodyStops | src/talkat/main.py:243-253 | without a stop the listen body equals the long-dictation body; a stop cuts the body at a chunk boundary, dropping the item being pulled and everything after it |
| Client.ResponseText | src/talkat/main.py:261-262 | the text taken from a reply is stripped, and exists exactly when the reply is an object whose `text`, if present, is a string |
| Client.ListenRun | src/talkat/main.py:206-331 | nothing is posted exactly when the generator yields no rate; then a generator that raised on its first item gives 1 and removes the PID file, and otherwise the code is 0 and the PID file is removed exactly when a stop signal arrived; otherwise the posted body is the listen body; a raise reached while the body is pulled gives 1 and removes the PID file; without one, the code is 0 exactly when the reply is an object with a usable `text` and nothing run after a non-empty text raises, and the PID file is removed exactly when a stop signal arrived or the server replied; any failure is 1 with no text; the text is saved exactly when it is non-empty and saving is on |
| Client.ListenOnRecorder | src/talkat/main.py:212-331 | fed by the recorder: no microphone gives 0 and no post; a failed open posts nothing and gives 0 exactly when its notice is accepted; an open stream whose set-up raises posts the metadata line alone and gives 1 with the PID file removed |
| Client.StepSpec | src/talkat/main.py:426-461 | one long-dictation pass ends the session (with 1) exactly on a connection error or an unusable JSON reply; otherwise its non-empty text is appended to the parts and, with a space, to the file |
| Client.LongLoopStops | src/talkat/main.py:395-461 | the loop ends early exactly when some pass ends the session, and then with code 1 |
| Client.LongLoopCollects | src/talkat/main.py:437-443 | without an ending pass the loop collects exactly the non-empty texts, in order, and the file holds each followed by one space |
| Client.LongStep | src/talkat/main.py:405-459 | one pass of the long-dictation loop as a specification function; its properties are stated by Client.LongLoopStops and Client.LongLoopCollects |
| Client.LongLoop | src/talkat/main.py:395-461 | the long-dictation loop as a specification function; its properties are stated by Client.LongLoopStops and Client.LongLoopCollects |
| Client.RequestErrorsSkipped | src/talkat/main.py:456-461 | a pass with a timeout, another request error or an undecodable reply changes nothing |
| Client.SpacedIsJoin | src/talkat/main.py:442-443 | the transcript file holds the single-space join of the parts plus one trailing space |
| Client.LongDictationAsWritten | src/talkat/main.py:353-354 | as written, the signal handler's `exit(0)` skips the interrupt branch: nothing reaches the clipboard |
| Client.RunLongDictation | src/talkat/main.py:392-496 | the long-dictation loop, run over the passes until the interrupt, returns exactly the corrected session outcome |
| Client.LongDictation | src/talkat/main.py:392-496 | the corrected end of a long-dictation session; Client.ClipboardGetsTranscript states its clipboard copy |
| Client.ClipboardGetsTranscript | src/talkat/main.py:463-496 | in the corrected session with the clipboard on, the single-space join of every non-empty text is copied and the file holds that join plus one space |
| Client.SignalSkipsClipboard | src/talkat/main.py:353-354 | on a one-pass session that recognises "hello", the code as written copies nothing while the corrected session copies "hello" |
| Client.MapAllSpec | src/talkat/main.py:587-588 | the comprehension succeeds exactly when every element converts, and then holds each converted element in place |
| Client.DeviceIndexSpec | src/talkat/main.py:582-599 | blank input is rejected; without a comma the value is `int(v)` or rejected |
| Client.DeviceIndexFields | src/talkat/main.py:586-592 | with a comma every field is stripped and parsed, and one bad field rejects the whole value |
| Client.DeviceIndexSingle | src/talkat/main.py:593-599 | a printed index reads back as itself |
| Client.DeviceIndexMulti | src/talkat/main.py:586-592 | two or more printed indices joined by commas read back as the list |
| Client.ParseDeviceIndex | src/talkat/main.py:581-599 | `parse_device_index_str` as a specification function; its properties are stated by the Client.DeviceIndex lemmas |
| Client.TranscriptNamesDistinct | src/talkat/main.py:37-38 | for one timestamp, different modes name different files |
| Client.SaveTranscript | src/talkat/main.py:35-44 | saving appends the text and a newline to `<dir>/<timestamp>_<mode>.txt`, creating it if missing, and changes no other file |
| Client.ClipboardSetting | src/talkat/main.py:656-658 | the clipboard is on exactly when the config's `clipboard_on_long` is absent or truthy and `--no-clipboard` was not given |
| Client.CalibrationConfig | src/talkat/main.py:633-644 | the saved config holds the loaded keys and the argument keys except `command`, each argument overriding, plus the calibrated threshold |
| ModelServer.ReadLine | src/talkat/model_server.py:290-292 | the line read and the rest of the stream together are the stream, and the line is empty only for an empty stream |
| ModelServer.ReadLineSplits | src/talkat/model_server.py:290 | a line whose only newline is its last byte is read whole, whatever follows it |
| ModelServer.IntOf | src/talkat/model_server.py:297-299 | the rate conversion succeeds exactly when `int()` does; a bad integer string is a 400, a value of the wrong type a 500 |
| ModelServer.MetadataRate | src/talkat/model_server.py:290-299 | every failure of the metadata handling is a 400 or a 500 |
| ModelServer.TranscribeStream | src/talkat/model_server.py:281-372 | 500 without a model, 400 for an empty body; 499 exactly when faster-whisper is loaded, the metadata line is good and the client disconnects during the read loop; a text is returned exactly on 200, and it is stripped |
| ModelServer.ReadBody | src/talkat/model_server.py:329-339 | the read loop fails exactly when a read raises before the last one; otherwise its buffer is exactly the rest of the stream, after one read per 4096-byte piece plus the final empty read |
| ModelServer.HandleTranscribeStream | src/talkat/model_server.py:282-372 | the handler with its read loop answers exactly as the endpoint specification says |
| ModelServer.MetadataLineRate | src/talkat/model_server.py:294-297 | the metadata line the client writes gives the server back the client's rate |
| ModelServer.StreamRoundTrip | src/talkat/model_server.py:290-345 | the server splits the client's body into the client's metadata line and exactly the chunks the client sent, in order, and reads the rate back |
| ModelServer.WhisperAnswers | src/talkat/model_server.py:325-365 | a faster-whisper server answers the client's body with "" when no audio was sent, 500 when the model raises, and otherwise the stripped transcription of exactly the audio sent |
| ModelServer.WhisperReply | src/talkat/model_server.py:325-372 | the client sees that answer as `{"text": ...}`, or as a failed request when the model raised |
| ModelServer.ListenGetsText | src/talkat/main.py:258-330 | a listen run whose server replies with a text field ends with 0 and that text, or with 1 when the text is non-empty and the steps after it raise |
| ModelServer.ListenRequestFails | src/talkat/main.py:281-287 | a listen run whose request fails ends with 1 |
| ModelServer.ListenAgainstServer | src/talkat/model_server.py:325-365 | against a faster-whisper server, a listen run that got a rate ends with 0 and "" for no audio, 0 and the stripped transcription of exactly the chunks sent (1 when the steps after a non-empty text raise), or 1 when the model raised |
| ModelServer.ListenAgainstReply | src/talkat/main.py:258-330 | any server that answers a listen body as a faster-whisper server does (empty text for no audio, the transcription, or a failure) ends the listen run with 0 and "", 0 and the stripped text or 1 when the steps after it raise, or 1 |
| ModelServer.WhisperServerAnswers | src/talkat/model_server.py:325-365 | the faster-whisper server answers the client's listen body in exactly that way, for the audio the client sent |
| ModelServer.TranscribeGuard | src/talkat/model_server.py:200-207 | `/transcribe` goes on exactly when a model is loaded and the body has `audio_data_b64` and `rate`; 500 exactly for the missing model, otherwise 400 |
| ModelServer.TranscribeFileGuard | src/talkat/model_server.py:385-405 | `/transcribe_file` goes on exactly with a model, librosa and a named `audio` file; 500 exactly for the missing model or librosa, otherwise 400 |
| ModelServer.KeepWords | src/talkat/model_server.py:555 | the kept words are non-empty, stripped, and no more than the lines |
| ModelServer.KeepWordsFixed | src/talkat/model_server.py:555 | words that are already stripped and non-empty are kept as they are |
| ModelServer.Server.LoadDictionary | src/talkat/model_server.py:37-70 | [] without a configured path, with a missing file, or when reading or decoding it raises, leaving the words alone; otherwise the file's stripped non-blank lines, which become the dictionary |
| ModelServer.Server.UpdateDictionary | src/talkat/model_server.py:528-603 | 400 exactly for a missing, unnamed, undecodable or wordless upload; 200 exactly when, past those, a path is configured, has a directory part and the write succeeds, otherwise 500; any failure changes nothing; on 200 the words become the dictionary and the file, and their positive count is returned |
| ModelServer.DirName | src/talkat/model_server.py:573 | `os.path.dirname` is "" exactly when the path holds no "/", so `os.makedirs("")` raises exactly then |
| ModelServer.DirNameOfChild | src/talkat/model_server.py:573 | the directory part of a file name joined under a directory is that directory |
| ModelServer.Server.InitialPrompt | src/talkat/model_server.py:73-88 | None exactly when the dictionary is empty, otherwise the words joined by ", " |
| ModelServer.Server.Health | src/talkat/model_server.py:505-511 | 200 exactly when a model is loaded, otherwise 500 |
| ModelServer.Server.DictionaryReport | src/talkat/model_server.py:514-524 | the report holds the words and their count |
| ModelServer.DictionaryRoundTrip | src/talkat/model_server.py:551-580 | what `update_dictionary` saves, `load_dictionary` reads back as the same words, when no word has a carriage return inside |
| ModelServer.CarriageReturnSplits | src/talkat/model_server.py:61-63 | a word with a carriage return inside is read back as two words, so the round trip needs its condition |
| ModelServerV2.BackendTranscribe | src/talkat/model_server_v2.py:86-269 | each backend gives "" for no samples; for non-empty samples it fails exactly when the model raises, and otherwise gives the model's text stripped |
| ModelServerV2.ServerTranscribe | src/talkat/model_server_v2.py:336-345 | no backend and an odd-length byte buffer raise; no audio gives ""; a text is always stripped |
| ModelServerV2.BackendTranscribeStream | src/talkat/model_server_v2.py:108-281 | a Whisper backend gives "" when no audio arrives; a text is always stripped |
| ModelServerV2.StreamIsOneShot | src/talkat/model_server_v2.py:108-119 | for the Whisper backends, however the audio is cut into chunks, streaming gives what transcribing the joined bytes gives |
| ModelServerV2.Gather | src/talkat/model_server_v2.py:110-113 | the buffer is the chunks joined in order |
| ModelServerV2.StreamTranscription | src/talkat/model_server_v2.py:108-119 | the buffer loop gives what `BackendTranscribeStream` says |
| ModelServerV2.Pieces | src/talkat/model_server_v2.py:421-426 | the reads join back to the stream, each is non-empty and at most 4096 bytes, and all but the last are full |
| ModelServerV2.PiecesHead | src/talkat/model_server_v2.py:423 | one read takes the first piece and leaves the pieces of the rest |
| ModelServerV2.ReadPieces | src/talkat/model_server_v2.py:421-426 | the generator yields exactly the stream's pieces |
| ModelServerV2.StreamEndpoint | src/talkat/model_server_v2.py:404-434 | 500 without a backend, 400 for a missing metadata line, only 200, 400 or 500; a text exactly on 200, stripped |
| ModelServerV2.StreamEndpointReadsClient | src/talkat/model_server_v2.py:404-434 | the client's streamed body, against a Whisper backend, is answered with the one-shot transcription of exactly the audio it carried, or 500 when that raises |
| ModelServerV2.StreamEndpointFeedsVosk | src/talkat/model_server_v2.py:271-281 | against Vosk the recogniser is fed exactly the 4096-byte pieces of the audio the client sent |
| ModelServerV2.Membership | src/talkat/model_server_v2.py:385 | on an object, `key in data` is whether the key is one of its fields |
| ModelServerV2.TranscribeEndpoint | src/talkat/model_server_v2.py:379-400 | 500 without a backend, 400 for a missing or empty body, and 200 only for a JSON object, with its text |
| ModelServerV2.TranscribeRequest | src/talkat/model_server_v2.py:385-396 | an object missing either key is a 400; a base64 string with an integer rate is answered with the transcription of the decoded bytes, or 500 when it raises |
| ModelServerV2.FileGuard | src/talkat/model_server_v2.py:438-448 | the upload goes on exactly with a backend and a named `audio` file; 500 exactly without a backend, otherwise 400 |
| ModelServerV2.FileGuardsAgree | src/talkat/model_server_v2.py:438-448 | both servers check an upload alike once librosa imports, and the first refuses everything with 500 without it |
| ModelServerV2.ModelKind | src/talkat/model_server_v2.py:301-329 | no backend exactly when `model_type` is none of the three supported types |
| ModelServerV2.LoadedConfigHasKind | src/talkat/model_server_v2.py:298-329 | every configuration that loads from the defaults or from a file that is not a list names a supported backend |
| ModelServerV2.ChoiceHasKind | src/talkat/model_server_v2.py:301-329 | a `model_type` that passes the choice check selects one of the three backends, so `initialize` never raises its ValueError for it |
| ModelServerV2.DefaultsPickWhisper | src/talkat/model_server_v2.py:301-314 | the defaults give a faster-whisper backend built with `base.en` |
| ModelServerV2.Server.constructor | src/talkat/model_server_v2.py:294-296 | no backend and an empty configuration |
| ModelServerV2.Server.Initialize | src/talkat/model_server_v2.py:298-334 | a load error escapes and changes nothing; otherwise the configuration is replaced; an unsupported type and a failing constructor raise and keep the old backend and the health; success installs the chosen backend, and health then reports 200 |
| ModelServerV2.Server.GetInfo | src/talkat/model_server_v2.py:354-366 | "not initialised" exactly without a backend, otherwise the backend in use |
| ModelServerV2.Server.Health | src/talkat/model_server_v2.py:481-488 | 200 exactly when a backend is loaded, otherwise 503 |
| ModelServerV2.Server.HandleTranscribeStream | src/talkat/model_server_v2.py:404-434 | the handler with both loops answers as `StreamEndpoint` says |
| FileProcessor.LastIndexOf | src/talkat/file_processor.py:45 | None exactly when the character is absent; otherwise an index holding it with none after |
| FileProcessor.BaseName | src/talkat/file_processor.py:266-267 | the name holds no separator |
| FileProcessor.Suffix | src/talkat/file_processor.py:45 | empty, or a dot followed by at least one character and no other dot |
| FileProcessor.StemSuffix | src/talkat/file_processor.py:287 | a name is its stem followed by its suffix, and a non-empty name has a non-empty stem |
| FileProcessor.NameSplits | src/talkat/file_processor.py:287 | the name of `dir/stem+ext` splits back into that stem and extension |
| FileProcessor.SupportedByExtension | src/talkat/file_processor.py:44-46 | a file is accepted exactly when its extension, lower-cased, is one of the seven formats, whatever the directory and stem |
| FileProcessor.TranscribeAudioFile | src/talkat/file_processor.py:15-115 | an exception exactly for a refused path or an unsupported suffix, `InvalidFile` exactly for the refused path; a transcription exactly when the server's steps all succeed, stripped, with the duration librosa found; every other failure exits |
| FileProcessor.TraversalRaises | src/talkat/file_processor.py:38-41 | a path with a parent step raises before anything is read |
| FileProcessor.WordValues | src/talkat/file_processor.py:131-133 | one JSON string per word, in order |
| FileProcessor.FormatOutput | src/talkat/file_processor.py:118-159 | json gives an object whose keys are exactly text, duration and words, with `text` holding the given text, the duration and the word count; srt and vtt one cue over the whole duration; any other format the text unchanged |
| FileProcessor.JsonOutputReadsBack | src/talkat/file_processor.py:130-133 | reading the json output's text field back gives the transcription |
| FileProcessor.OutputExtension | src/talkat/file_processor.py:278-285 | `.json`, `.srt` or `.vtt` for those formats, `.txt` for any other |
| FileProcessor.OutputNameKeepsStem | src/talkat/file_processor.py:277-287 | the output file keeps the input's stem and takes the format's extension as its suffix |
| FileProcessor.BatchStepCounts | src/talkat/file_processor.py:270-300 | a step after an exit changes nothing; otherwise it exits exactly when the file does, or counts the file once, as a success exactly when it is transcribed to a non-empty text and, with a directory, written |
| FileProcessor.HandleCounts | src/talkat/file_processor.py:273-300 | handling a file that did not exit counts it once, as a success exactly when the text is non-empty and its write, if any, does not fail |
| FileProcessor.EmptyDirIsStdout | src/talkat/file_processor.py:258 | a batch with the output directory "" runs exactly as one with none |
| FileProcessor.AnyOfMeans | src/talkat/file_processor.py:265 | the fold-shaped search finds an element exactly when there is one |
| FileProcessor.BatchTally | src/talkat/file_processor.py:258-300 | the batch exits exactly when some file does; otherwise every file is counted once, and the successes are the files with a non-empty transcription whose output file, when a non-empty output directory is given, could be written |
| FileProcessor.BatchCounts | src/talkat/file_processor.py:258-300 | the same, with the exit stated over the input positions; a failed write counts as an error |
| FileProcessor.BatchProcessFiles | src/talkat/file_processor.py:243-307 | the loop's tally, files and printouts are the fold's; 0 exactly when no file was an error, otherwise 1; every file is counted once; an empty output directory prints as no directory does |
| FileProcessor.HandleFile | src/talkat/file_processor.py:273-300 | after a transcription that did not exit, the tally, the written files and the printouts are exactly one step of the batch fold, where a write that fails counts as an error and an empty directory prints |
| FileProcessor.BatchExitSticks | src/talkat/file_processor.py:265-300 | once a file exits, the files after it change nothing |
| FileProcessor.ProcessAudioFileCommand | src/talkat/file_processor.py:162-240 | exits exactly when the transcription does; 0 exactly for a non-empty transcription whose output could be written; the formatted output is written to the named file or printed |
| FileProcessor.CommandAgreesWithBatch | src/talkat/file_processor.py:162-307 | the command and a one-file batch printing to standard output succeed together and print the same output |
| ProcessManager.PathsDistinct | src/talkat/process_manager.py:30-31 | the PID file, the lock file and the temporary PID file of one name are three different files |
| ProcessManager.CmdlineContains | src/talkat/process_manager.py:96-99 | a word found in any argument of the command is found in the process's cmdline |
| ProcessManager.RunningPid | src/talkat/process_manager.py:82-116 | a PID is reported exactly when the PID file exists, reads, holds an integer, names a live process whose cmdline contains "talkat", and that PID is the file's |
| ProcessManager.ProbeIdempotent | src/talkat/process_manager.py:75-116 | a second `is_running` reports what the first did and changes nothing more, and with nothing running the PID file is gone |
| ProcessManager.StartedIsRunning | src/talkat/process_manager.py:199-223 | a process started with "talkat" in its arguments, whose PID was written to a readable PID file, is reported running by the next probe |
| ProcessManager.Tagged | src/talkat/process_manager.py:163-187 | every signal is sent to the one process, in order |
| ProcessManager.Escalation | src/talkat/process_manager.py:160-197 | SIGINT comes first, then SIGTERM exactly when the process survives every probe, then SIGKILL exactly when SIGTERM did not end it; the result is False exactly when the process was gone before SIGTERM could reach it |
| ProcessManager.ProbeIgnoresOtherFile | src/talkat/process_manager.py:82-100 | writing any file other than the PID file leaves what `is_running` reports unchanged |
| ProcessManager.ToggleReply | src/talkat/process_manager.py:236-250 | `toggle` reports "not running" exactly when the lock was not acquired or a running process was stopped |
| ProcessManager.SignalPolicy | src/talkat/process_manager.py:265-284 | SIGHUP is ignored, SIGINT and SIGTERM run the cleanup when one is given and exit with 0, and other signals keep their default |
| ProcessManager.World.Unlink | src/talkat/process_manager.py:138-140 | afterwards the path is gone and nothing else changed |
| ProcessManager.Manager.constructor | src/talkat/process_manager.py:22-32 | the PID file, lock file and temporary file are the name's paths under the runtime directory, and no descriptor is held |
| ProcessManager.Manager.AcquireLock | src/talkat/process_manager.py:34-62 | True exactly when the lock file opens and the lock frees up within the attempts; the lock is then held; the lock file exists after an open; an open error leaves the descriptor |
| ProcessManager.Manager.ReleaseLock | src/talkat/process_manager.py:64-73 | afterwards no descriptor is held and the lock this manager held is free |
| ProcessManager.Manager.CleanupPidFile | src/talkat/process_manager.py:136-143 | afterwards there is no PID file, and nothing else changed |
| ProcessManager.Manager.IsRunning | src/talkat/process_manager.py:75-116 | reports the PID `RunningPid` gives, and removes the PID file exactly when it names no running talkat process |
| ProcessManager.Manager.WritePid | src/talkat/process_manager.py:118-134 | on success the PID file holds the PID's digits and no temporary file is left; on any failure the PID file is as it was and the temporary file is gone |
| ProcessManager.Manager.Escalate | src/talkat/process_manager.py:160-197 | the signals of `Escalation` are sent to the process, it is gone afterwards, and the PID file is removed exactly when the result is True |
| ProcessManager.Manager.StopProcess | src/talkat/process_manager.py:145-197 | with nothing running: True, no signal, no PID file; otherwise the escalation against the running PID |
| ProcessManager.Manager.StartBackgroundProcess | src/talkat/process_manager.py:199-227 | returns the spawned PID or None with nothing changed; the new process runs with the command as its cmdline, and after a healthy write a command naming talkat is reported running |
| ProcessManager.Manager.ToggleLocked | src/talkat/process_manager.py:239-253 | the reply of `ToggleReply`, the stop of a running process, and the lock released in every case |
| ProcessManager.Manager.Toggle | src/talkat/process_manager.py:229-253 | a failed acquisition stops nothing and probes nothing; otherwise the locked toggle runs and the lock is released |
| ProcessManager.Manager.Enter | src/talkat/process_manager.py:255-258 | the lock is taken as `acquire_lock` takes it, whatever the outcome |
| ProcessManager.Manager.Exit | src/talkat/process_manager.py:260-262 | the lock is released as `release_lock` releases it |
| Security.ValidatePort | src/talkat/security.py:19-40 | a port is accepted exactly when `int()` reads it and it lies in 1..65535; every failure is a ValueError |
| Security.PortRoundTrip | src/talkat/security.py:32-40 | a port given as a number or as its decimal text is accepted exactly in range and comes back as the same number |
| Security.NamePatternMeans | src/talkat/security.py:102-103 | the anchored pattern accepts a non-empty run of name characters, optionally followed by one final newline (Python's `$`) |
| Security.ValidateModelName | src/talkat/security.py:88-113 | an accepted name comes back unchanged; every refusal is a ValueError |
| Security.ModelNameAccepted | src/talkat/security.py:101-113 | the names accepted are exactly the non-empty name-character strings (optional final newline) without ".." of at most 256 characters |
| Security.TrailingNewlineName | src/talkat/security.py:102-103 | a model name ending in a newline is accepted |
| Security.ValidateCommand | src/talkat/security.py:116-157 | an accepted command comes back unchanged; ValueError exactly for the empty command |
| Security.DangerousMeans | src/talkat/security.py:133-139 | an argument holds one of the refused substrings exactly when it holds a metacharacter or a backslash followed by `n` or `r` |
| Security.CommandAccepted | src/talkat/security.py:129-157 | a command passes exactly when it is non-empty and every argument is safe |
| Security.LineBreakArgumentPasses | src/talkat/security.py:133-139 | a real line break inside an argument is not refused |
| Security.CollapseShape | src/talkat/security.py:186-187 | after a run-collapsing substitution no two neighbours are in the class and nothing new appears but the replacement |
| Security.CollapseNonSpace | src/talkat/security.py:185-187 | collapsing whitespace runs keeps every non-whitespace character, in order |
| Security.ClipboardClean | src/talkat/security.py:160-189 | the clipboard text is within the limit, free of NUL, CR and tab, has no doubled newline or space, no whitespace at either end, and keeps every other character of the truncated text in order |
| Security.EscapeOrder | src/talkat/security.py:219-221 | replacing the backslash first and then the other four specials escapes each special character exactly once |
| Security.UnescapeEscape | src/talkat/security.py:217-221 | deleting the escape backslashes gives the unescaped text back |
| Security.TypingRoundTrip | src/talkat/security.py:192-223 | the typing text is the filtered, truncated text with each special escaped once, holds no control character and is at most twice the limit |
| Security.PowerOfTwoTest | src/talkat/security.py:253 | `n & (n - 1) == 0` holds for n >= 1 exactly when n is a power of two |
| Security.ValidateAudioParams | src/talkat/security.py:226-258 | accepted parameters come back unchanged; every refusal is a ValueError |
| Security.AudioParamsAccepted | src/talkat/security.py:243-258 | parameters are accepted exactly for one of the five rates, one or two channels and a power-of-two chunk in 256..8192 |
| Security.ValidateFilePath | src/talkat/security.py:61-69 | SecurityError exactly when "../" or "..\" occurs in the raw path; otherwise the resolved path |
| Security.TraversalAnywhere | src/talkat/security.py:66-67 | a parent step anywhere in the raw string is refused, whatever surrounds it |
| Security.ValidateJsonConfigSpec | src/talkat/security.py:261-322 | the validator accepts exactly the acceptable configurations, keeps every key, resolves each path and leaves every other value alone; a SecurityError comes only from a traversing path |
| Security.ValidateJsonList | src/talkat/security.py:274-322 | given a list, the validator fails exactly when some element is one of the checked key names, always with a TypeError (the numeric checks' `except` re-evaluates `config[param]`), and otherwise returns the list unchanged |
| Security.NumericKeyListRaisesTypeError | src/talkat/security.py:296-302 | a list naming `silence_threshold` fails with TypeError, not with the ValueError the `except` was written to raise |
| Security.ValuesOkIgnorePaths | src/talkat/security.py:289-320 | the numeric, boolean and choice checks do not look at the path keys |
| Security.UncheckedKeysPass | src/talkat/security.py:274-322 | a configuration without any checked key passes unchanged |
| Cli.LongCommand | src/talkat/cli.py:33 | the long-dictation command has four arguments, one naming talkat, so the started process is recognised as talkat's |
| Cli.GetPid | src/talkat/cli.py:17-21 | the PID exactly when `is_running` reports one, with the probe's clean-up of a stale PID file |
| Cli.StartLongLocked | src/talkat/cli.py:28-44 | 1 when a long-dictation process already runs or no PID was obtained, and then no process is started; otherwise 0, and after a healthy PID write the new process is reported running |
| Cli.StartLongBackground | src/talkat/cli.py:24-44 | the locked start's code and effects, and the lock is free afterwards when it was free before |
| Cli.StopBackground | src/talkat/cli.py:47-59 | 0 exactly when `stop_process` returns True; the signals sent are the escalation against the running PID, or none; the lock is free afterwards when it was before |
| Cli.StopLongBackground | src/talkat/cli.py:47-59 | the shared stop on the `long_dictation` manager |
| Cli.StopListenProcess | src/talkat/cli.py:80-93 | the shared stop on the `listen` manager |
| Cli.ToggleLongBackground | src/talkat/cli.py:62-70 | a running process is stopped with the stop's code; with none running a new one is started, 0 exactly when a PID was obtained, and reported running after a healthy write |
| Cli.ListenCommand | src/talkat/cli.py:163-172 | a live listen process is stopped and the stop's code exits; otherwise the client runs and no signal is sent |
| Cli.Route | src/talkat/cli.py:104-192 | the help with exit code 1 exactly when no sub-command is given; argparse's rejection with exit status 2 exactly for a word that is not a sub-command; `listen` goes to the listen toggle |
| Cli.RouteInjective | src/talkat/cli.py:163-192 | distinct sub-commands reach distinct branches |
| Paths.GetXdgDir | src/talkat/paths.py:7-9 | the variable's value when set, otherwise the default with the home directory expanded |
| Paths.XdgDirs | src/talkat/paths.py:13-21 | the config, cache and data homes come from their variables or defaults |
| Paths.RuntimeFallback | src/talkat/paths.py:16-21 | the runtime home is the named or per-user directory when it exists, otherwise `<cache>/talkat/runtime` joined as pathlib does, which is `<cache>` + "/talkat/runtime" for a cache path without a trailing separator |
| Paths.GetConfigFile | src/talkat/paths.py:72-84 | the user's file or the system file; the user's file wins when present; the result is present exactly when one of the two is |
| Paths.DefaultConfigFile | src/talkat/paths.py:13-28 | with no XDG variables the user's configuration is `<home>/.config/talkat/config.json`, with the home's trailing separators dropped |
| Paths.PlainHomeConfigFile | src/talkat/paths.py:13-28 | for a home without a trailing separator the user's configuration is exactly `<home>/.config/talkat/config.json` |
| Paths.ExpandUser | src/talkat/paths.py:9 | `~` or a leading `~/` is replaced by the home without its trailing separators, an empty result is "/", and any other path is kept |
| Paths.RootHomeExpands | src/talkat/paths.py:13 | a home of "/" expands `~/.config` to `/.config` and `~` to "/" |
| Paths.Child | src/talkat/paths.py:27-28 | joining under the empty path gives the bare name, a trailing separator of the directory is not doubled, and otherwise one "/" separates the two |
| Paths.EmptyConfigHome | src/talkat/paths.py:13-28 | an `XDG_CONFIG_HOME` set to "" puts the configuration at the relative `talkat/config.json` |
| Paths.ChildNested | src/talkat/paths.py:37-38 | joining two names one after the other is joining their "/"-separated path once |
| Devices.ListAudioDevices | src/talkat/devices.py:4-11 | the indices listed are exactly those of the devices with an input channel, in increasing order |
| Devices.FindMicrophone | src/talkat/devices.py:14-36 | the default input device when there is one; otherwise the lowest-indexed device with an input channel; None exactly when there is no such device |
| Config.BaseEnValid | src/talkat/config.py:54 | the default model name passes the model-name check unchanged |
| Config.DefaultsAcceptable | src/talkat/config.py:22-71 | the shipped defaults pass the validator, as long as the directory layout has no parent step |
| Config.CheckedHold | src/talkat/config.py:24-67 | the defaults hold the documented values under every key the validator checks |
| Config.DefaultsHold | src/talkat/config.py:53-62 | the full defaults map holds the default model and passes every choice check |
| Config.AcceptableFrom | src/talkat/config.py:54-67 | a map holding the default model name and parent-free paths, whose values pass, is accepted |
| Config.ValuesAcceptable | src/talkat/config.py:24-66 | the values the defaults hold under the checked keys pass the value checks |
| Config.LoadAppConfigSpec | src/talkat/config.py:74-95 | with neither the user file nor the system file present the load gives the defaults; otherwise it loads the user file when present and the system file when not; the only OSError is an unopenable chosen file |
| Config.LoadAppConfig | src/talkat/config.py:74-95 | `load_app_config` as a specification function; its properties are stated by Config.LoadAppConfigSpec |
| Config.LoadFileSpec | src/talkat/config.py:80-95 | a missing file gives the defaults; an unopenable file is the only OSError; a rejection only comes from a parent step in a path; undecodable JSON or a value that is neither an object nor a list keeps the defaults; a list keeps the defaults exactly when it names a checked key, and is otherwise merged pair by pair over them; an accepted object wins key by key over the defaults, with its paths resolved |
| Config.LoadFile | src/talkat/config.py:80-95 | one file load as a specification function; its properties are stated by Config.LoadFileSpec |
| Config.LoadsValidatedFile | src/talkat/config.py:80-90 | a present user file whose object the validator accepts loads as the defaults overlaid with the validated object |
| Config.SaveAppConfig | src/talkat/config.py:98-111 | the validator error escapes exactly when the configuration is not acceptable |
| Config.SaveThenLoad | src/talkat/config.py:74-111 | when the saved file is the one read back, the load gives the defaults overlaid with exactly what was saved |
| Config.SavedRevalidates | src/talkat/config.py:98-108 | what a save writes passes the validator again unchanged, given a canonical resolver |
| Config.ValuesOkAfterPaths | src/talkat/security.py:261-322 | resolving the path keys does not change the outcome of the value checks |
| Config.LoadedChoicesValid | src/talkat/config.py:74-95 | every configuration a load returns from the defaults or a file that is not a list passes the choice checks, so its model type is one of the three backends |
| Config.LoadFileChoices | src/talkat/config.py:80-95 | loading any file that is not a list over defaults that pass the choice checks gives a configuration that passes them too |
| Config.AsPair | src/talkat/config.py:90 | an element `update` can store is a two-item list with a hashable key or a two-character string, and nothing else |
| Config.MergePairs | src/talkat/config.py:90 | merging pairs never removes a key |
| Config.MergeSnoc | src/talkat/config.py:90 | pairs are stored in order, so the last pair with a key decides its value |
| Config.MergeStopsAt | src/talkat/config.py:89-93 | a malformed element ends the merge and what was stored before it stays |
| Config.ListFileLoadsUnchecked | src/talkat/config.py:86-93 | a list of pairs loads a `model_type` outside the three backends and a traversing `transcript_dir` |
| Config.LoadFileCheckedChoices | src/talkat/config.py:80-95 | with a validator that rejects non-dicts every non-object file loads as the defaults, and every load keeps the choices valid |
| Config.LoadFileChecked | src/talkat/config.py:80-95 | the corrected file load that rejects a value that is not an object; Config.LoadFileCheckedChoices states its properties |
| Config.ChoicesOverlay | src/talkat/config.py:90 | overlaying a validated file on choice-valid defaults keeps every choice valid |
| LongDictation.TotalWordsOfJoin | src/talkat/long_dictation.py:39-43 | counting words segment by segment is counting the words of the transcript joined by single spaces |
| LongDictation.DictationSession.constructor | src/talkat/long_dictation.py:26-33 | an empty transcript with every counter at zero |
| LongDictation.DictationSession.AddText | src/talkat/long_dictation.py:35-39 | an empty text changes nothing; any other is appended and its words counted; the count stays that of the transcript |
| LongDictation.DictationSession.FullText | src/talkat/long_dictation.py:41-43 | the full text has exactly the words counted on the segments |
| LongDictation.DictationSession.GetStats | src/talkat/long_dictation.py:45-53 | the minutes times 60 are the duration, the rate times the minutes is the word count, and no duration gives a rate of 0 |
| LongDictation.RequestBodyIsLongBody | src/talkat/long_dictation.py:185-194 | the body this generator sends is the one the other long-dictation client sends for the same audio |
| LongDictation.ChunksAgree | src/talkat/long_dictation.py:191-194 | the audio forwarded is the audio the other client forwards, although only this one keeps empty chunks |
| LongDictation.TranscribeAudio | src/talkat/long_dictation.py:198-215 | a text only from a JSON reply, and then stripped and equal to the reply's text field |
| LongDictation.Ran | src/talkat/long_dictation.py:250-287 | no more passes run than the recorder offers |
| LongDictation.CounterIsTrailingEmpty | src/talkat/long_dictation.py:246-283 | `consecutive_empty` is the run of trailing empty passes modulo 3, so it never reaches 3 |
| LongDictation.PassesAccounted | src/talkat/long_dictation.py:265-279 | segments and pauses together account for every pass |
| LongDictation.FoldMeans | src/talkat/long_dictation.py:250-287 | the loop's figures are the heard segments in order, one pause per empty pass, the clock reading of the last heard pass, one body per pass, and the counter |
| LongDictation.EnhancedLongDictation.constructor | src/talkat/long_dictation.py:59-96 | a fresh empty session, the stop event clear, and the two flags stored |
| LongDictation.EnhancedLongDictation.HandlePass | src/talkat/long_dictation.py:263-283 | one pass changes the session and counter as one step of the fold |
| LongDictation.EnhancedLongDictation.Listen | src/talkat/long_dictation.py:249-290 | the passes the loop runs leave their segments, pauses, clock reading, bodies and counter as `FoldMeans` describes |
| LongDictation.EnhancedLongDictation.Run | src/talkat/long_dictation.py:217-330 | a health error escapes; a non-200 or unreachable server gives 1 with the session object and the stop event untouched; otherwise the loop's figures (no pass at all when the stop event was already set), the stop event set, the full text saved when saving, copied when the clipboard is on and the text non-empty, and 0 |
| LongDictation.SavedTextMatchesCount | src/talkat/long_dictation.py:35-43 | the word count always matches the words of the saved full text |
| Record.Smooth | src/talkat/record.py:312-313 | the history always holds between one and three volumes, as the three-slot deque does |
| Client.SentChunks | src/talkat/main.py:252-253 | no more chunks are sent than items pulled |
| Client.Pulled | src/talkat/main.py:248-251 | the items the body takes are a prefix of what the generator yields |
| Client.TextOf | src/talkat/main.py:435-439 | a pass contributes at most one text, and never an empty one |
| Client.Texts | src/talkat/main.py:437-439 | no collected text is empty |
| Json.ToInt | src/talkat/model_server.py:297 | `int()` fails with a ValueError exactly for a string that is not a base-10 integer, and with a TypeError exactly for null, a list or an object |
| Json.ToReal | src/talkat/security.py:298 | `float()` takes an integer as its exact value, and fails with a TypeError exactly for null, a list or an object |
| Text.ParseInt | src/talkat/main.py:595 | `int()` on a string succeeds only on a string that is not blank after stripping |
| Text.ParseIntOfString | src/talkat/main.py:595 | `int()` reads back every integer `str()` prints |
| Security.Truncated | src/talkat/security.py:178-180 | the truncated text is a prefix of the text, within the limit |
| Security.Collapse | src/talkat/security.py:186-187 | substituting every run never lengthens the text |
| ModelServer.NewlineAt | src/talkat/model_server.py:290 | the index of the first newline, or the end when there is none |
| ModelServer.Universal | src/talkat/model_server.py:61-63 | text-mode reading changes nothing in a text without a carriage return |
| ModelServer.Server.constructor | src/talkat/model_server.py:28-34 | the model as given and an empty dictionary |

## Left out

- Floating point: volumes, durations, thresholds and percentiles are exact reals. float32 rounding and the conversion of samples to float are not modelled. The percentile itself is a parameter.
- Bytes and text: text is ASCII only where bytes are decoded (`Text.DecodeAscii`), so general UTF-8 is not modelled. `json.loads` is modelled for the JSON subset the program exchanges: objects, strings without escapes, integers, booleans and null.
- Json.ToReal: reads strings as base-10 integers only; `float()` spellings with a fraction or an exponent are not modelled.
- Record.CalibrateMicrophone and Record.StreamAudioWithVad: the microphone is a finite sequence of reads. Running out of reads ends a loop like a read error; the real device blocks.
- Real time: clocks, `time.sleep` and timeouts become counts. The model has poll budgets in `stop_process` and attempt counts in `acquire_lock`.
- File system: symbolic links and `Path.resolve` normalisation are a `resolve` function parameter. Directory creation (`mkdir`, `ensure_user_directories`, `RUNTIME_DIR.mkdir`) is not modelled.
- FileProcessor.BaseName: does not normalise trailing or doubled separators as `pathlib` does.
- Concurrency: the auto-save thread of `EnhancedLongDictation`, the `threading.Event` set from a signal handler, and concurrent lock holders are not modelled. A signal is a flag on the pass in which it arrives.
- Back ends: faster-whisper, Distil-Whisper, Vosk, librosa and soundfile are function parameters that return a text or fail. The backend constructors' arguments and a backend's `get_info` device fields are not modelled.
- Vosk in the first server: the recogniser session is abstracted to a function of the rate and the audio.
- Base64: decoding is a parameter. The upload decoding and resampling inside the `/transcribe_file` endpoints are not modelled, only their guards.
- Model loading: `initialize_model` in the first server (which backend loads, and model download) is not modelled, and neither is the second server's `/models` listing. Neither holds logic beyond selecting a backend, which `ModelServerV2.ModelKind` covers.
- Config.LoadFile: in a list, a two-member JSON object is an element `update` reads as its two keys in insertion order. The decoded object is a map without that order, so the model treats such an element as malformed. Pairs whose key is not a string are dropped, since a `Config` is keyed by strings.
- Text.ParseInt: reads ASCII digits only; Python's `int()` also accepts other Unicode decimal digits.
- Json.ToInt: relies on Text.ParseInt, so a string of non-ASCII decimal digits is a ValueError in the model and a number in the source.
- Security.ValidatePort: relies on Text.ParseInt, so a port written in non-ASCII decimal digits is refused in the model and accepted in the source.
- Record.StreamAudioWithVad: models the generator with `debug=False`. With the default `debug=True`, the progress report's `total_chunks_processed % (int(1000 / chunk_size_ms) // 2)` (record.py:535-537) raises ZeroDivisionError when `chunk_size_ms` is above 500 or below -1000; that raise is not modelled.
- Record.StreamYields: states the generator with `debug=False`, as Record.StreamAudioWithVad does; the debug report's ZeroDivisionError is not covered.
- Client.LongStep: a raise from the recorder generator (a rejected open notice, a failed set-up) is not an input of a pass. In the source it reaches the outer `except Exception` of `run_long_dictation_command`. The same holds for the passes of LongDictation.EnhancedLongDictation.Run.
- FileProcessor.OutputPath: joins with "/", so an output directory given with a trailing separator gives a doubled one that `pathlib` collapses.
- ModelServer.ReadBody: every `read(4096)` before the end of the body returns a full piece. A socket read returning fewer bytes changes the number of reads, not the buffer, and is not modelled.
- ModelServer.TranscribeGuard: the JSON body is an object or absent. A body that decodes to a list, a string or a number, on which the source's `in` tests behave differently or raise, cannot be represented.
- ProcessManager.RunningPid: a PID beyond the C `int` range makes `os.kill` raise OverflowError, which `except (OSError, ValueError)` does not catch (process_manager.py:92, 114). The model gives None.
- ProcessManager.Manager.IsRunning: the same OverflowError escapes in the source, where the model reports no process.
- ProcessManager.Manager.CleanupPidFile: the model always removes the file. In the source an unlink failure is logged and the file stays (process_manager.py:139-143).
- ProcessManager.Escalation: a process that is gone before the SIGINT makes `os.kill` raise, and `stop_process` returns False (process_manager.py:163, 195-197). The model assumes the SIGINT is delivered.
- Paths.Child: handles the empty directory and one trailing separator as `pathlib` does, but not the rest of its normalisation: several trailing separators, doubled separators inside the path, and `.` components are kept as written.
- FileProcessor.BatchProcessFiles: `mkdir` of the output directory raising (file_processor.py:260) and a partly written output file are not modelled.
- Security.ValidateJsonConfigSpec: returns the validated map as a new value, not as the in-place update `validate_json_config` performs.
- The SRT and WebVTT renderings: the timestamp text, with its hour, minute and second fields, is not modelled. `FileProcessor.FormatOutput` keeps the text and the duration of the single cue.
- `safe_subprocess_run`: a subprocess call whose whitelist check only logs. Clipboard, typing and notification subprocesses are not modelled beyond the text handed to them.
- The clipboard copy in `process_audio_file_command` and in `EnhancedLongDictation`: whether `wl-copy` or `xclip` succeeds is I/O. It never changes a result.
- `run_enhanced_long_dictation`: the way the threshold and flags are read from the configuration is not modelled; `EnhancedLongDictation` takes the flags directly.
- LongDictation.EnhancedLongDictation.Run: the passes are a finite sequence. A recorder that ends before yielding a rate ends the loop, and `return 0` in the `finally` block swallows that `StopIteration`.
- The transcript and session file names with their timestamps, and the JSON session metadata file, are not modelled. `Run` reports the saved text.
- `transcribe_audio_file`: reading the server URL and timeouts from the configuration is not modelled; the server is the `FileEnv` parameter.
- The `RUNTIME_DIR` of process_manager.py is `~/.cache/talkat`, while paths.py computes a different runtime directory that the process manager does not use. Both are modelled as written.
- `logging_config`, the logging calls, and every `print` or `notify-send` message are not modelled, except the recorders' notice about a failed open, whose rejection by the command check raises.
- ModelServer.MetadataRate: states only the error codes; what a well-formed line gives is stated by `ModelServer.MetadataLineRate` for the client's line.

## Findings

| source | as written | input that shows it | evidently intended | confidence | as-written member | corrected member |
|---|---|---|---|---|---|---|
| src/talkat/main.py:353-354 | `run_long_dictation_command` installs `setup_signal_handlers`, whose handler turns SIGINT and SIGTERM into `exit(0)`, so the `except KeyboardInterrupt` branch (join, clipboard copy) never runs | a session that recognises "hello" and is stopped with Ctrl+C, with the clipboard on | on the interrupt, the texts are joined with single spaces and copied to the clipboard, as the `KeyboardInterrupt` branch does | high, not executed | Client.LongDictationAsWritten (shown by Client.SignalSkipsClipboard) | Client.LongDictation (proved by Client.ClipboardGetsTranscript) |
| src/talkat/config.py:86-93 | `validate_json_config` is typed for a dict but never checks for one: on a list every `"<key>" in config` test compares elements, so a list of pairs passes unchecked and `config.update` merges it | the file `[["model_type", "bogus"], ["transcript_dir", "../../x"]]` | a file that is not a JSON object is rejected like any other invalid file, and the defaults are used | high, not executed | Config.LoadFile (shown by Config.ListFileLoadsUnchecked) | Config.LoadFileChecked (proved by Config.LoadFileCheckedChoices) |

## Notes on the code

Where the code departs from what its documentation says, the model follows the code:

- The first server answers a bad metadata line with 400. The second server answers it with 500 from its generic `except`.
- A `sys.exit(1)` inside `transcribe_audio_file` ends a whole batch, not just one file.
- `stream_audio_with_vad` yields the rate as soon as the stream opens. So a "listen" run with no speech still posts a body that holds only the metadata line.
- `stop_process` returns False, and leaves the PID file, when the process exits between the last probe and the SIGTERM.
- It also returns False when the process exits before the SIGINT, since `os.kill` then raises inside the `try`.
