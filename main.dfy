/** The client side of src/talkat/main.py: the request bodies streamed to the model server,
    the outcome of one `listen` run, the accumulation loop of long dictation, the parser of
    `--fw_device_index`, transcript naming and the clipboard and calibration settings. */
module Client {
  import opened Wrappers
  import opened Seqs
  import opened Text
  import Json
  import Security
  import opened Record

  // ---------------------------------------------------------------------------------------
  // Request bodies

  /** `json.dumps({"rate": rate}).encode("utf-8") + b"\n"`. */
  function MetadataLine(rate: int): (line: seq<byte>)
  {
    Json.RateTextAscii(rate);
    EncodeAscii(Json.RateText(rate)) + [NEWLINE]
  }

  /** The metadata line ends with its only newline, and the text before it is the JSON. */
  lemma MetadataLineShape(rate: int)
    ensures var line := MetadataLine(rate);
      |line| > 0 && line[|line| - 1] == NEWLINE && NEWLINE !in line[..|line| - 1] &&
      DecodeAscii(line[..|line| - 1]) == Some(Json.RateText(rate))
  {
    Json.RateTextAscii(rate);
    var t := EncodeAscii(Json.RateText(rate));
    var line := MetadataLine(rate);
    assert line[..|line| - 1] == t;
    DecodeEncode(Json.RateText(rate));
    forall k | 0 <= k < |t| ensures t[k] != NEWLINE {
      assert t[k] == Json.RateText(rate)[k] as int;
    }
  }

  /** The chunks the body generators pass on: `if audio_chunk: yield audio_chunk` keeps the
      non-empty audio in order (the generator yields no rate after its first item). */
  function SentChunks(items: seq<Item>): (chunks: seq<seq<byte>>)
    ensures |chunks| <= |items|
  {
    if items == [] then []
    else (if items[0].Audio? && items[0].bytes != [] then [items[0].bytes] else []) + SentChunks(items[1..])
  }

  lemma {:induction false} SentChunksAppend(a: seq<Item>, b: seq<Item>)
    ensures SentChunks(a + b) == SentChunks(a) + SentChunks(b)
  {
    if a == [] {
      assert a + b == b;
    } else {
      assert (a + b)[1..] == a[1..] + b;
      SentChunksAppend(a[1..], b);
    }
  }

  /** Every chunk sent is non-empty, and on audio items the chunks sent are exactly the
      non-empty ones in order. */
  lemma {:induction false} SentChunksNonEmpty(items: seq<Item>)
    ensures forall k | 0 <= k < |SentChunks(items)| :: SentChunks(items)[k] != []
    ensures forall c: seq<seq<byte>> :: items == Audios(c) ==> SentChunks(items) == Filter(c, NonEmptyChunk)
  {
    if items != [] {
      SentChunksNonEmpty(items[1..]);
      forall c: seq<seq<byte>> | items == Audios(c)
        ensures SentChunks(items) == Filter(c, NonEmptyChunk)
      {
        assert items[1..] == Audios(c[1..]);
        assert items[0] == Audio(c[0]);
      }
    }
  }

  predicate NonEmptyChunk(b: seq<byte>)
  {
    b != []
  }

  /** The items the listen body takes from the generator after the rate: when the stop flag is
      first seen on pulling item `k` (`Some(k)`), that item is dropped and the body ends. */
  function Pulled(rest: seq<Item>, stopAt: Option<nat>): (p: seq<Item>)
    ensures p <= rest
  {
    if stopAt.Some? && stopAt.value < |rest| then rest[..stopAt.value] else rest
  }

  /** The body `run_listen_command` posts: the metadata line, then the raw chunks. */
  function ListenBody(rate: int, rest: seq<Item>, stopAt: Option<nat>): seq<byte>
  {
    MetadataLine(rate) + Concat(SentChunks(Pulled(rest, stopAt)))
  }

  /** The body `run_long_dictation_command` posts for one utterance: the same format, with no
      stop flag. */
  function LongBody(rate: int, rest: seq<Item>): seq<byte>
  {
    MetadataLine(rate) + Concat(SentChunks(rest))
  }

  /** Without a stop the two bodies agree; a stop cuts the body short at a chunk boundary,
      with nothing after the dropped item. */
  lemma ListenBodyStops(rate: int, rest: seq<Item>, k: nat)
    ensures ListenBody(rate, rest, None) == LongBody(rate, rest)
    ensures k < |rest| ==>
      ListenBody(rate, rest, Some(k)) + Concat(SentChunks(rest[k..])) == LongBody(rate, rest)
  {
    if k < |rest| {
      assert rest == rest[..k] + rest[k..];
      SentChunksAppend(rest[..k], rest[k..]);
      ConcatAppend(SentChunks(rest[..k]), SentChunks(rest[k..]));
    }
  }

  // ---------------------------------------------------------------------------------------
  // run_listen_command

  /** What one POST to `/transcribe_stream` comes back with: a connection error, a timeout,
      another `RequestException` (an HTTP error status included), a body that is not JSON, or
      the decoded JSON value. */
  datatype Reply = ConnectFailed | TimedOut | RequestFailed | NotJson | Replied(json: Json.Value)

  /** `response_json.get("text", "").strip()`; `None` is the AttributeError raised when the
      value is not an object or its `text` is not a string. */
  function ResponseText(v: Json.Value): (t: Option<string>)
    ensures t.Some? ==> Strip(t.value) == t.value
    ensures t.Some? <==> v.Object? && ("text" in v.fields ==> v.fields["text"].Str?)
  {
    if !v.Object? then None
    else if "text" !in v.fields then Some("")
    else if v.fields["text"].Str? then
      StripIdempotent(v.fields["text"].s);
      Some(Strip(v.fields["text"].s))
    else None
  }

  /** The result of one `listen` run: the exit code, the body posted (if any), the text
      recognised and handed on for typing, whether it was saved as a transcript, and whether
      the PID file was removed on the way out. */
  datatype ListenOutcome = ListenOutcome(code: int, posted: Option<seq<byte>>, text: string, saved: bool, pidCleaned: bool)

  /** Whether the recorder generator's raise reaches `run_listen_command`: the generator raises
      once it has yielded all of `rest`, which is pulled unless the stop flag cuts the body
      short first. */
  predicate RaiseReached(rest: seq<Item>, stopAt: Option<nat>, raised: bool)
  {
    raised && !(stopAt.Some? && stopAt.value < |rest|)
  }

  /** `run_listen_command` after the PID file is written. `items` is what the recorder
      generator yields and `raised` whether it raises after them, `stopAt` is when the SIGINT
      flag is first seen (`Some` exactly when the signal arrives during the run; its handler
      removes the PID file at once), `server` answers the posted body, `saveTranscripts` is the
      config's `save_transcripts`, and `afterFails` says whether `load_app_config` or
      `save_transcript`, run once a non-empty text is recognised, raises. A raise from the
      generator, whether on the first `next` or while `requests.post` pulls the body, and a raise
      from those later steps, reach the outer `except Exception`, which removes the PID file and
      returns 1. */
  function ListenRun(items: seq<Item>, raised: bool, stopAt: Option<nat>, server: seq<byte> -> Reply,
                     saveTranscripts: bool, afterFails: bool): (r: ListenOutcome)
    ensures r.posted.None? <==> items == [] || !items[0].Rate?
    ensures r.posted.None? && items == [] ==>
      (r.code == 0 <==> !raised) && (r.pidCleaned <==> stopAt.Some? || raised)
    ensures r.posted.None? && items != [] ==> r.code == 0 && (r.pidCleaned <==> stopAt.Some?)
    ensures r.posted.Some? ==> r.posted.value == ListenBody(items[0].hz, items[1..], stopAt)
    ensures r.posted.Some? && RaiseReached(items[1..], stopAt, raised) ==> r.code == 1 && r.pidCleaned
    ensures r.posted.Some? && !RaiseReached(items[1..], stopAt, raised) ==>
      var reply := server(r.posted.value);
      (r.code == 0 <==> reply.Replied? && ResponseText(reply.json).Some? && !(ResponseText(reply.json).value != "" && afterFails))
    ensures r.posted.Some? && !RaiseReached(items[1..], stopAt, raised) ==>
      var reply := server(r.posted.value);
      (r.pidCleaned <==> stopAt.Some? || reply.Replied?)
    ensures r.code != 0 ==> r.code == 1 && r.text == "" && !r.saved
    ensures r.saved <==> r.text != "" && saveTranscripts
    ensures Strip(r.text) == r.text
  {
    var signalled := stopAt.Some?;
    if items == [] then
      if raised then ListenOutcome(1, None, "", false, true) else ListenOutcome(0, None, "", false, signalled)
    else if !items[0].Rate? then ListenOutcome(0, None, "", false, signalled)
    else
      var body := ListenBody(items[0].hz, items[1..], stopAt);
      if RaiseReached(items[1..], stopAt, raised) then ListenOutcome(1, Some(body), "", false, true)
      else
        match server(body)
        case Replied(v) =>
          (match ResponseText(v)
           case None => ListenOutcome(1, Some(body), "", false, true)
           case Some(t) =>
             if t != "" && afterFails then ListenOutcome(1, Some(body), "", false, true)
             else ListenOutcome(0, Some(body), t, t != "" && saveTranscripts, true))
        case _ => ListenOutcome(1, Some(body), "", false, signalled)
  }

  /** A recorder built on a real device feeds the listen run: without a microphone, or with an
      open failure whose notice is accepted, the run ends with 0 and posts nothing; a rejected
      notice ends it with 1; after an open stream whose set-up raises, the metadata line alone
      was posted and the run ends with 1, the PID file removed. */
  lemma ListenOnRecorder(p: StreamParams, dev: Device, stopAt: Option<nat>, server: seq<byte> -> Reply,
                         saveTranscripts: bool, afterFails: bool)
    ensures var r := ListenRun(StreamItems(p, dev), StreamRaises(p, dev), stopAt, server, saveTranscripts, afterFails);
      (dev.NoMicrophone? ==> r.code == 0 && r.posted.None?) &&
      (dev.OpenFails? ==> r.posted.None? && (r.code == 0 <==> Security.SafeArg(dev.error))) &&
      (dev.Opened? && !SetUpOk(p) ==> r.code == 1 && r.pidCleaned && r.posted == Some(MetadataLine(16000)))
  {
    StreamYields(p, dev);
    if dev.Opened? && !SetUpOk(p) {
      var items := StreamItems(p, dev);
      assert items[0].hz == 16000 && items[1..] == [];
      assert Pulled([], stopAt) == [] && SentChunks([]) == [];
      assert ListenBody(16000, [], stopAt) == MetadataLine(16000) + [];
      assert MetadataLine(16000) + [] == MetadataLine(16000);
    }
  }

  // ---------------------------------------------------------------------------------------
  // run_long_dictation_command

  /** One pass of the long-dictation loop: what the recorder yields and what the server
      answers to the body built from it. */
  datatype Utterance = Utterance(items: seq<Item>, reply: Reply)

  /** The loop's variables: `full_transcript` and the session's transcript file. */
  datatype LongState = LongState(parts: seq<string>, file: string)

  /** One pass: `Some(1)` ends the session (a connection error, or an AttributeError reaching
      the outer `except Exception`); other request and JSON errors go on to the next pass. */
  function LongStep(st: LongState, u: Utterance): (LongState, Option<int>)
  {
    if u.items == [] || !u.items[0].Rate? then (st, None)
    else match u.reply
      case ConnectFailed => (st, Some(1))
      case Replied(v) =>
        (match ResponseText(v)
         case None => (st, Some(1))
         case Some(t) => if t == "" then (st, None) else (LongState(st.parts + [t], st.file + t + " "), None))
      case _ => (st, None)
  }

  /** The loop over a finite run of utterances, until one ends the session. */
  function LongLoop(st: LongState, us: seq<Utterance>): (LongState, Option<int>)
    decreases |us|
  {
    if us == [] then (st, None)
    else
      var r := LongStep(st, us[0]);
      if r.1.Some? then r else LongLoop(r.0, us[1..])
  }

  const START := LongState([], "")

  /** Whether a pass ends the session. */
  predicate Ends(u: Utterance)
  {
    u.items != [] && u.items[0].Rate? &&
    (u.reply.ConnectFailed? || (u.reply.Replied? && ResponseText(u.reply.json).None?))
  }

  /** The text a pass contributes: its stripped response text when that is non-empty. */
  function TextOf(u: Utterance): (t: seq<string>)
    ensures |t| <= 1 && (|t| == 1 ==> t[0] != "")
  {
    if u.items != [] && u.items[0].Rate? && u.reply.Replied? && ResponseText(u.reply.json).Some?
       && ResponseText(u.reply.json).value != ""
    then [ResponseText(u.reply.json).value] else []
  }

  /** The texts the loop collects, in order; none is empty. */
  function Texts(us: seq<Utterance>): (ts: seq<string>)
    ensures forall k | 0 <= k < |ts| :: ts[k] != ""
  {
    if us == [] then [] else TextOf(us[0]) + Texts(us[1..])
  }

  /** Each text followed by the single space the loop writes after it. */
  function Spaced(parts: seq<string>): string
  {
    if parts == [] then "" else parts[0] + " " + Spaced(parts[1..])
  }

  lemma {:induction false} SpacedAppend(parts: seq<string>, t: string)
    ensures Spaced(parts + [t]) == Spaced(parts) + t + " "
  {
    if parts != [] {
      assert (parts + [t])[1..] == parts[1..] + [t];
      SpacedAppend(parts[1..], t);
    } else {
      assert [t][1..] == [];
    }
  }

  /** The file holds the join of the collected texts plus one trailing space. */
  lemma {:induction false} SpacedIsJoin(parts: seq<string>)
    requires parts != []
    ensures Spaced(parts) == Join(parts, " ") + " "
  {
    if |parts| > 1 {
      SpacedIsJoin(parts[1..]);
    } else {
      assert parts[1..] == [];
    }
  }

  /** One pass ends the session exactly when it `Ends`, with 1; otherwise it appends its text
      to the parts and the text and a space to the file. */
  lemma StepSpec(st: LongState, u: Utterance)
    ensures LongStep(st, u).1.Some? <==> Ends(u)
    ensures LongStep(st, u).1.Some? ==> LongStep(st, u).1 == Some(1) && LongStep(st, u).0 == st
    ensures !Ends(u) ==> LongStep(st, u).0 == LongState(st.parts + TextOf(u), st.file + Spaced(TextOf(u)))
  {
    if !Ends(u) && TextOf(u) != [] {
      assert TextOf(u)[1..] == [];
    }
  }

  /** The session ends early exactly when some pass `Ends`, and then with 1. */
  lemma {:induction false} LongLoopStops(st: LongState, us: seq<Utterance>)
    ensures LongLoop(st, us).1.None? <==> forall k | 0 <= k < |us| :: !Ends(us[k])
    ensures LongLoop(st, us).1.Some? ==> LongLoop(st, us).1 == Some(1)
    decreases |us|
  {
    if us != [] {
      StepSpec(st, us[0]);
      var r := LongStep(st, us[0]);
      if r.1.None? {
        LongLoopStops(r.0, us[1..]);
        assert forall k | 0 <= k < |us[1..]| :: us[1..][k] == us[k + 1];
      }
    }
  }

  /** Without an ending pass, the loop collects exactly the non-empty texts in order and the
      file holds each of them followed by a space. */
  lemma {:induction false} LongLoopCollects(st: LongState, us: seq<Utterance>)
    requires st.file == Spaced(st.parts)
    requires forall k | 0 <= k < |us| :: !Ends(us[k])
    ensures LongLoop(st, us).0.parts == st.parts + Texts(us)
    ensures LongLoop(st, us).0.file == Spaced(LongLoop(st, us).0.parts)
    decreases |us|
  {
    if us != [] {
      StepSpec(st, us[0]);
      var st1 := LongStep(st, us[0]).0;
      if TextOf(us[0]) != [] {
        SpacedAppend(st.parts, TextOf(us[0])[0]);
        assert TextOf(us[0]) == [TextOf(us[0])[0]];
        assert Spaced(TextOf(us[0])) == TextOf(us[0])[0] + " " by {
          assert TextOf(us[0])[1..] == [];
        }
      }
      assert st1.file == Spaced(st1.parts);
      assert forall k | 0 <= k < |us[1..]| :: us[1..][k] == us[k + 1];
      LongLoopCollects(st1, us[1..]);
      assert LongLoop(st, us) == LongLoop(st1, us[1..]);
      assert Texts(us) == TextOf(us[0]) + Texts(us[1..]);
      AppendAssoc(st.parts, TextOf(us[0]), Texts(us[1..]));
    }
  }

  /** Passes with a timeout, another request error or an undecodable reply are skipped. */
  lemma {:induction false} RequestErrorsSkipped(st: LongState, a: seq<Utterance>, u: Utterance, b: seq<Utterance>)
    requires u.reply.TimedOut? || u.reply.RequestFailed? || u.reply.NotJson?
    ensures LongLoop(st, a + [u] + b) == LongLoop(st, a + b)
    decreases |a|
  {
    if a == [] {
      assert (a + [u] + b)[1..] == b;
      assert a + b == b;
    } else {
      var r := LongStep(st, a[0]);
      assert (a + [u] + b)[0] == a[0] && (a + b)[0] == a[0];
      assert (a + [u] + b)[1..] == a[1..] + [u] + b;
      assert (a + b)[1..] == a[1..] + b;
      if r.1.None? {
        RequestErrorsSkipped(r.0, a[1..], u, b);
      }
    }
  }

  /** How the session ends after its passes. */
  datatype LongOutcome = LongOutcome(code: int, clipboard: Option<string>, file: string)

  /** The end of the session AS WRITTEN: the SIGINT or SIGTERM that stops it runs the handler
      of `setup_signal_handlers`, which calls `exit(0)`; the `SystemExit` skips the
      `except KeyboardInterrupt` branch, so the join and the clipboard copy never happen. */
  function LongDictationAsWritten(us: seq<Utterance>, clipboard: bool): (r: LongOutcome)
    ensures r.clipboard == None
  {
    var r := LongLoop(START, us);
    if r.1.Some? then LongOutcome(r.1.value, None, r.0.file) else LongOutcome(0, None, r.0.file)
  }

  /** The end of the session as evidently intended: on the interrupt, the texts are joined
      with single spaces and copied when the join is non-empty and the clipboard is on. */
  function LongDictation(us: seq<Utterance>, clipboard: bool): LongOutcome
  {
    var r := LongLoop(START, us);
    if r.1.Some? then LongOutcome(r.1.value, None, r.0.file)
    else
      var full := Join(r.0.parts, " ");
      LongOutcome(0, if full != "" && clipboard then Some(full) else None, r.0.file)
  }

  /** `run_long_dictation_command` over a finite run of passes, the interrupt arriving after
      the last one. */
  method RunLongDictation(us: seq<Utterance>, clipboard: bool) returns (out: LongOutcome)
    ensures out == LongDictation(us, clipboard)
  {
    var parts: seq<string> := [];
    var file := "";
    var i := 0;
    while i < |us|
      invariant 0 <= i <= |us|
      invariant LongLoop(START, us) == LongLoop(LongState(parts, file), us[i..])
    {
      assert us[i..][1..] == us[i + 1..];
      var u := us[i];
      if u.items != [] && u.items[0].Rate? {
        match u.reply {
          case ConnectFailed =>
            return LongOutcome(1, None, file);
          case Replied(v) =>
            var t := ResponseText(v);
            if t.None? {
              return LongOutcome(1, None, file);
            }
            if t.value != "" {
              parts := parts + [t.value];
              file := file + t.value + " ";
            }
          case TimedOut =>
          case RequestFailed =>
          case NotJson =>
        }
      }
      i := i + 1;
    }
    var full := Join(parts, " ");
    out := LongOutcome(0, if full != "" && clipboard then Some(full) else None, file);
  }

  /** With the clipboard on and no pass ending the session, the corrected session copies the
      single-space join of every non-empty text, and the transcript file holds that join
      followed by one space. */
  lemma ClipboardGetsTranscript(us: seq<Utterance>, clipboard: bool)
    requires forall k | 0 <= k < |us| :: !Ends(us[k])
    ensures var r := LongDictation(us, clipboard);
      r.code == 0 &&
      (Texts(us) == [] ==> r.clipboard == None && r.file == "") &&
      (Texts(us) != [] ==> r.file == Join(Texts(us), " ") + " " &&
                           r.clipboard == (if clipboard then Some(Join(Texts(us), " ")) else None))
  {
    LongLoopStops(START, us);
    LongLoopCollects(START, us);
    var r := LongLoop(START, us);
    assert r.0.parts == Texts(us) by {
      assert START.parts + Texts(us) == Texts(us);
    }
    var full := Join(Texts(us), " ");
    assert LongDictation(us, clipboard) == LongOutcome(0, if full != "" && clipboard then Some(full) else None, r.0.file);
    if Texts(us) != [] {
      SpacedIsJoin(Texts(us));
      JoinNonEmpty(Texts(us));
    }
  }

  lemma JoinNonEmpty(parts: seq<string>)
    requires parts != [] && parts[0] != ""
    ensures Join(parts, " ") != ""
  {
  }

  /** A one-pass session that recognises "hello": as written nothing reaches the clipboard,
      though the corrected session copies "hello". */
  lemma SignalSkipsClipboard()
    ensures var us := [Utterance([Rate(16000)], Replied(Json.Object(map["text" := Json.Str("hello")])))];
      LongDictationAsWritten(us, true).clipboard == None &&
      LongDictation(us, true).clipboard == Some("hello")
  {
    var u := Utterance([Rate(16000)], Replied(Json.Object(map["text" := Json.Str("hello")])));
    var us := [u];
    StripNoEdgeSpace("hello");
    assert ResponseText(u.reply.json) == Some("hello");
    var st1 := LongState(["hello"], "hello ");
    assert u.items != [] && u.items[0].Rate? && u.reply.Replied?;
    assert LongStep(START, u) == (LongState(START.parts + ["hello"], START.file + "hello" + " "), None);
    assert START.parts + ["hello"] == ["hello"] && START.file + "hello" + " " == "hello ";
    assert us[1..] == [];
    assert LongLoop(START, us) == LongLoop(st1, []);
    assert Join(st1.parts, " ") == "hello";
  }

  // ---------------------------------------------------------------------------------------
  // parse_device_index_str

  datatype DeviceIndex = Single(index: int) | Multi(indices: seq<int>)

  /** `int(x.strip())`. */
  function FieldValue(x: string): Option<int>
  {
    ParseInt(Strip(x))
  }

  /** A list comprehension whose element expression may raise: `f` on every element, or
      `None` as soon as one element fails. */
  function MapAll<A, B>(xs: seq<A>, f: A -> Option<B>): (r: Option<seq<B>>)
    ensures r.Some? ==> |r.value| == |xs|
  {
    if xs == [] then Some([])
    else
      var head := f(xs[0]);
      var tail := MapAll(xs[1..], f);
      if head.Some? && tail.Some? then Some([head.value] + tail.value) else None
  }

  lemma {:induction false} MapAllSpec<A, B>(xs: seq<A>, f: A -> Option<B>)
    ensures MapAll(xs, f).Some? <==> forall k | 0 <= k < |xs| :: f(xs[k]).Some?
    ensures MapAll(xs, f).Some? ==> forall k | 0 <= k < |xs| :: MapAll(xs, f).value[k] == f(xs[k]).value
  {
    if xs != [] {
      MapAllSpec(xs[1..], f);
      assert forall k | 1 <= k < |xs| :: xs[k] == xs[1..][k - 1];
    }
  }

  /** `[int(x.strip()) for x in fields]`; one bad field rejects all. */
  function ParseFields(fields: seq<string>): (r: Option<seq<int>>)
  {
    MapAll(fields, FieldValue)
  }

  /** `parse_device_index_str`; `None` stands for the `ArgumentTypeError`. */
  function ParseDeviceIndex(v: string): Option<DeviceIndex>
  {
    if Strip(v) == "" then None
    else if ',' in v then
      match ParseFields(Split(v, ','))
      case None => None
      case Some(ns) => Some(Multi(ns))
    else
      match ParseInt(v)
      case None => None
      case Some(n) => Some(Single(n))
  }

  /** Blank input is rejected, and without a comma the value is `int(v)`. */
  lemma DeviceIndexSpec(v: string)
    ensures Strip(v) == "" ==> ParseDeviceIndex(v).None?
    ensures Strip(v) != "" && ',' !in v ==>
      ParseDeviceIndex(v) == (if ParseInt(v).Some? then Some(Single(ParseInt(v).value)) else None)
  {
  }

  /** Whether every field parses. */
  predicate AllFieldsParse(fields: seq<string>)
  {
    forall k | 0 <= k < |fields| :: FieldValue(fields[k]).Some?
  }

  /** With a comma, each comma-separated field is parsed after stripping, and one bad field
      rejects the whole input. */
  lemma DeviceIndexFields(v: string)
    requires Strip(v) != "" && ',' in v
    ensures ParseDeviceIndex(v).Some? <==> AllFieldsParse(Split(v, ','))
    ensures ParseDeviceIndex(v).Some? ==>
      var fields := Split(v, ',');
      ParseDeviceIndex(v).value.Multi? && |ParseDeviceIndex(v).value.indices| == |fields| &&
      forall k | 0 <= k < |fields| :: ParseDeviceIndex(v).value.indices[k] == FieldValue(fields[k]).value
  {
    var fields := Split(v, ',');
    MapAllSpec(fields, FieldValue);
    var pf := ParseFields(fields);
    assert pf.Some? <==> AllFieldsParse(fields);
    assert ParseDeviceIndex(v) == if pf.Some? then Some(Multi(pf.value)) else None;
  }

  /** `str(n)` for each index. */
  function Render(ns: seq<int>): (r: seq<string>)
    ensures |r| == |ns| && forall k | 0 <= k < |ns| :: r[k] == IntToString(ns[k])
  {
    if ns == [] then [] else [IntToString(ns[0])] + Render(ns[1..])
  }

  lemma IntToStringPlain(n: int)
    ensures ',' !in IntToString(n) && Strip(IntToString(n)) == IntToString(n) && Strip(IntToString(n)) != ""
  {
    var s := IntToString(n);
    var m := if n < 0 then -n else n;
    assert forall k | 0 <= k < |s| :: s[k] == '-' || IsDigit(s[k]) by {
      if n < 0 {
        assert forall k | 1 <= k < |s| :: s[k] == NatToString(m)[k - 1];
      }
    }
    StripNoEdgeSpace(s);
  }

  /** A single printed index reads back as itself. */
  lemma DeviceIndexSingle(n: int)
    ensures ParseDeviceIndex(IntToString(n)) == Some(Single(n))
  {
    IntToStringPlain(n);
    ParseIntOfString(n);
  }

  /** Two or more printed indices joined by commas read back as the list. */
  lemma DeviceIndexMulti(ns: seq<int>)
    requires |ns| >= 2
    ensures ParseDeviceIndex(Join(Render(ns), ",")) == Some(Multi(ns))
  {
    var parts := Render(ns);
    var v := Join(parts, ",");
    forall k | 0 <= k < |parts| ensures ',' !in parts[k] && FieldValue(parts[k]) == Some(ns[k]) {
      IntToStringPlain(ns[k]);
      ParseIntOfString(ns[k]);
    }
    JoinSplit(parts, ',');
    assert v == parts[0] + "," + Join(parts[1..], ",");
    assert v[|parts[0]|] == ',';
    IntToStringPlain(ns[0]);
    assert Strip(v) != "" by {
      assert v[0] == parts[0][0];
      StripKeepsNonSpace(v, 0);
    }
    MapAllSpec(parts, FieldValue);
    assert ParseFields(parts).value == ns;
  }

  /** A string whose character at `k` is not whitespace does not strip to empty. */
  lemma StripKeepsNonSpace(s: string, k: nat)
    requires k < |s| && !IsSpace(s[k])
    ensures Strip(s) != ""
  {
    StripKeepsAll(s, k);
  }

  lemma {:induction false} StripKeepsAll(s: string, k: nat)
    requires k < |s| && !IsSpace(s[k])
    ensures Strip(s) != ""
  {
    var l := LStrip(s);
    LStripKeeps(s, k);
    RStripKeeps(l);
  }

  lemma {:induction false} LStripKeeps(s: string, k: nat)
    requires k < |s| && !IsSpace(s[k])
    ensures LStrip(s) != [] && !IsSpace(LStrip(s)[0])
  {
    if IsSpace(s[0]) {
      LStripKeeps(s[1..], k - 1);
    }
  }

  lemma {:induction false} RStripKeeps(s: string)
    requires s != [] && !IsSpace(s[0])
    ensures RStrip(s) != []
  {
    if |s| > 1 && IsSpace(s[|s| - 1]) {
      RStripKeeps(s[..|s| - 1]);
    }
  }

  // ---------------------------------------------------------------------------------------
  // save_transcript, clipboard and calibration settings

  /** `f"{timestamp}_{mode}.txt"`. */
  function TranscriptName(timestamp: string, mode: string): string
  {
    timestamp + "_" + mode + ".txt"
  }

  /** For one timestamp, different modes get different files. */
  lemma TranscriptNamesDistinct(timestamp: string, m1: string, m2: string)
    ensures TranscriptName(timestamp, m1) == TranscriptName(timestamp, m2) ==> m1 == m2
  {
    if TranscriptName(timestamp, m1) == TranscriptName(timestamp, m2) {
      var n := |timestamp| + 1;
      assert |m1| == |m2|;
      assert m1 == TranscriptName(timestamp, m1)[n..n + |m1|];
      assert m2 == TranscriptName(timestamp, m2)[n..n + |m2|];
    }
  }

  /** `save_transcript`: append `text + "\n"` to `<dir>/<timestamp>_<mode>.txt`, creating it
      when missing; every other file is unchanged. */
  function SaveTranscript(files: map<string, string>, dir: string, timestamp: string, mode: string, text: string): (r: map<string, string>)
    ensures var path := dir + "/" + TranscriptName(timestamp, mode);
      r.Keys == files.Keys + {path} &&
      r[path] == (if path in files then files[path] else "") + text + "\n" &&
      forall p | p in files && p != path :: r[p] == files[p]
  {
    var path := dir + "/" + TranscriptName(timestamp, mode);
    files[path := (if path in files then files[path] else "") + text + "\n"]
  }

  /** `initial_config.get("clipboard_on_long", True) and not args.no_clipboard`, as the value
      Python's `and` produces. */
  function ClipboardSetting(config: map<string, Json.Value>, noClipboard: bool): (v: Json.Value)
    ensures Json.Truthy(v) <==> ("clipboard_on_long" !in config || Json.Truthy(config["clipboard_on_long"])) && !noClipboard
  {
    var first := if "clipboard_on_long" in config then config["clipboard_on_long"] else Json.Bool(true);
    if !Json.Truthy(first) then first else Json.Bool(!noClipboard)
  }

  /** The config `run_calibration_command` saves: the loaded config overridden by the
      parsed arguments, without `command`, with the calibrated threshold. */
  function CalibrationConfig(initial: map<string, Json.Value>, args: map<string, Json.Value>, threshold: real): (r: map<string, Json.Value>)
    ensures r.Keys == (initial.Keys + args.Keys - {"command"}) + {"silence_threshold"}
    ensures r["silence_threshold"] == Json.Real(threshold)
    ensures forall k | k in r && k != "silence_threshold" :: r[k] == if k in args then args[k] else initial[k]
  {
    var merged := initial + args;
    (merged - {"command"})["silence_threshold" := Json.Real(threshold)]
  }
}
