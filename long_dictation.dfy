/** The enhanced long-dictation mode of src/talkat/long_dictation.py: the session record and
    its word accounting, the request body and reply handling of `_transcribe_audio`, and the
    main loop of `run` with its pause counters and its final save and clipboard copy. The
    recorder, the server's replies and the clock are given per pass. */
module LongDictation {
  import opened Wrappers
  import opened Seqs
  import opened Text
  import Json
  import Client
  import Record

  // ---------------------------------------------------------------------------------------
  // DictationSession

  /** The words of all segments, counted segment by segment. */
  function TotalWords(ts: seq<string>): nat
  {
    if ts == [] then 0 else TotalWords(ts[..|ts| - 1]) + |Words(ts[|ts| - 1])|
  }

  /** Counting segment by segment is counting the words of the joined transcript: the single
      spaces `get_full_text` puts between segments never merge or split a word. */
  lemma {:induction false} TotalWordsOfJoin(ts: seq<string>)
    ensures |Words(Join(ts, " "))| == TotalWords(ts)
  {
    if |ts| == 1 {
      assert ts[..0] == [];
    } else if |ts| > 1 {
      var init := ts[..|ts| - 1];
      var last := ts[|ts| - 1];
      assert ts == init + [last];
      JoinAppend(init, last, " ");
      assert Join(ts, " ") == Join(init, " ") + [' '] + last;
      WordsSplitAtSpace(Join(init, " "), ' ', last);
      TotalWordsOfJoin(init);
    }
  }

  /** The figures `get_stats` reports. */
  datatype Stats = Stats(durationMinutes: real, wordCount: int, wordsPerMinute: real, pauses: int, segments: nat)

  class DictationSession {
    var transcript: seq<string>
    var wordCount: int
    var duration: real
    var pauses: int

    /** `DictationSession(start_time=..., transcript=[])` with the field defaults. */
    constructor ()
      ensures transcript == [] && wordCount == 0 && duration == 0.0 && pauses == 0
      ensures Valid()
    {
      transcript := [];
      wordCount := 0;
      duration := 0.0;
      pauses := 0;
    }

    /** The word count is always that of the segments held. */
    predicate Valid()
      reads this
    {
      wordCount == TotalWords(transcript)
    }

    /** `add_text`: an empty text changes nothing; any other is appended as a segment and its
        `split()` words are counted. */
    method AddText(text: string)
      modifies this
      requires Valid()
      ensures Valid()
      ensures text == "" ==> transcript == old(transcript) && wordCount == old(wordCount)
      ensures text != "" ==> transcript == old(transcript) + [text] && wordCount == old(wordCount) + |Words(text)|
      ensures duration == old(duration) && pauses == old(pauses)
    {
      if text != "" {
        assert (transcript + [text])[..|transcript|] == transcript;
        transcript := transcript + [text];
        wordCount := wordCount + |Words(text)|;
      }
    }

    /** `get_full_text`: the segments joined by single spaces; its words are exactly the ones
        counted. */
    function FullText(): (full: string)
      reads this
      ensures |Words(full)| == TotalWords(transcript)
    {
      TotalWordsOfJoin(transcript);
      Join(transcript, " ")
    }

    /** `get_stats`. The rate times the minutes gives back the words, and a session with no
        duration reports a rate of 0. */
    function GetStats(): (s: Stats)
      reads this
      ensures s.segments == |transcript| && s.wordCount == wordCount && s.pauses == pauses
      ensures s.durationMinutes * 60.0 == duration
      ensures duration <= 0.0 ==> s.wordsPerMinute == 0.0
      ensures duration > 0.0 ==> s.wordsPerMinute * s.durationMinutes == wordCount as real
    {
      var minutes := duration / 60.0;
      Stats(minutes, wordCount, if duration > 0.0 then wordCount as real / minutes else 0.0, pauses, |transcript|)
    }
  }

  // ---------------------------------------------------------------------------------------
  // _transcribe_audio

  /** What `request_data_generator` passes on after the metadata line: every item of the
      recorder except an integer (a rate). */
  function RequestChunks(items: seq<Record.Item>): seq<seq<byte>>
  {
    if items == [] then []
    else (if items[0].Rate? then [] else [items[0].bytes]) + RequestChunks(items[1..])
  }

  /** The bytes the server receives for one utterance. Empty chunks add nothing. */
  function RequestBody(rate: int, items: seq<Record.Item>): seq<byte>
  {
    Client.MetadataLine(rate) + Concat(RequestChunks(items))
  }

  /** The body is the one `run_long_dictation_command` in main.py sends for the same audio,
      although this generator forwards empty chunks and that one drops them. */
  lemma {:induction false} RequestBodyIsLongBody(rate: int, items: seq<Record.Item>)
    ensures RequestBody(rate, items) == Client.LongBody(rate, items)
  {
    ChunksAgree(items);
  }

  lemma {:induction false} ChunksAgree(items: seq<Record.Item>)
    ensures Concat(RequestChunks(items)) == Concat(Client.SentChunks(items))
  {
    if items != [] {
      ChunksAgree(items[1..]);
      var head := if items[0].Rate? then [] else [items[0].bytes];
      var sent := if items[0].Audio? && items[0].bytes != [] then [items[0].bytes] else [];
      ConcatAppend(head, RequestChunks(items[1..]));
      ConcatAppend(sent, Client.SentChunks(items[1..]));
      if head != [] {
        ConcatSingle(items[0].bytes);
      }
      if sent != [] {
        ConcatSingle(items[0].bytes);
      }
    }
  }

  /** `_transcribe_audio` after the post: the stripped `text` of a JSON object reply, and
      `None` for a connection error, any other exception, or a reply it cannot read. */
  function TranscribeAudio(reply: Client.Reply): (t: Option<string>)
    ensures t.Some? ==> reply.Replied? && Strip(t.value) == t.value
    ensures reply.Replied? ==> t == Client.ResponseText(reply.json)
  {
    match reply
    case Replied(v) => Client.ResponseText(v)
    case _ => None
  }

  // ---------------------------------------------------------------------------------------
  // run

  /** The `/health` request: the status code, a ConnectionError, or another exception
      (a timeout), which `run` does not catch. */
  datatype HealthCheck = Status(code: int) | Unreachable | HealthRaised

  /** One pass of the loop: the rate the recorder yields first (`None`: the generator ends or
      raises before it), the items after it, the server's reply, the clock reading taken after
      a transcription, and whether a signal set the stop event during the pass. */
  datatype Pass = Pass(rate: Option<int>, rest: seq<Record.Item>, reply: Client.Reply, elapsed: real, stop: bool)

  /** How `run` ends. A `StopIteration` from the recorder is swallowed by the `return 0` in
      `finally`. */
  datatype RunEnd = Finished(code: int, saved: Option<string>, clipboard: Option<string>) | Raised

  /** A pass whose transcription is a non-empty text. */
  predicate Heard(p: Pass)
  {
    var t := TranscribeAudio(p.reply); t.Some? && t.value != ""
  }

  /** The number of passes the loop runs: up to the first whose recorder yields no rate (not
      run), or the first during which the stop event is set (run), or all of them. */
  function Ran(passes: seq<Pass>): (k: nat)
    ensures k <= |passes|
  {
    if passes == [] || passes[0].rate.None? then 0
    else if passes[0].stop then 1
    else 1 + Ran(passes[1..])
  }

  lemma RanAt(passes: seq<Pass>, i: nat)
    requires i < |passes|
    ensures Ran(passes[i..]) == if passes[i].rate.None? then 0 else if passes[i].stop then 1 else 1 + Ran(passes[i + 1..])
  {
    assert passes[i..][0] == passes[i] && passes[i..][1..] == passes[i + 1..];
  }

  /** The segments the passes add, in order. */
  function Kept(ps: seq<Pass>): seq<string>
  {
    if ps == [] then []
    else Kept(ps[..|ps| - 1]) + (if Heard(ps[|ps| - 1]) then [TranscribeAudio(ps[|ps| - 1].reply).value] else [])
  }

  /** The passes with nothing heard: each is one pause. */
  function Empties(ps: seq<Pass>): nat
  {
    if ps == [] then 0 else Empties(ps[..|ps| - 1]) + (if Heard(ps[|ps| - 1]) then 0 else 1)
  }

  /** `consecutive_empty` after the passes: reset on a heard pass, otherwise one more, and
      reset again when it reaches 3. */
  function Counter(ps: seq<Pass>): nat
  {
    if ps == [] then 0
    else if Heard(ps[|ps| - 1]) then 0
    else var c := Counter(ps[..|ps| - 1]) + 1; if c >= 3 then 0 else c
  }

  /** The number of passes at the end with nothing heard. */
  function TrailingEmpty(ps: seq<Pass>): nat
  {
    if ps == [] || Heard(ps[|ps| - 1]) then 0 else TrailingEmpty(ps[..|ps| - 1]) + 1
  }

  /** The counter is the run of empty passes at the end, modulo 3, so it never reaches 3. */
  lemma {:induction false} CounterIsTrailingEmpty(ps: seq<Pass>)
    ensures Counter(ps) == TrailingEmpty(ps) % 3
    ensures Counter(ps) < 3
  {
    if ps != [] && !Heard(ps[|ps| - 1]) {
      CounterIsTrailingEmpty(ps[..|ps| - 1]);
    }
  }

  /** The bodies posted, one per pass. */
  function Bodies(ps: seq<Pass>): seq<seq<byte>>
  {
    if ps == [] then []
    else Bodies(ps[..|ps| - 1]) + [RequestBody(if ps[|ps| - 1].rate.Some? then ps[|ps| - 1].rate.value else 0, ps[|ps| - 1].rest)]
  }

  /** `session.duration`: the clock reading after the last heard pass. */
  function LastElapsed(ps: seq<Pass>, initial: real): real
  {
    if ps == [] then initial
    else if Heard(ps[|ps| - 1]) then ps[|ps| - 1].elapsed
    else LastElapsed(ps[..|ps| - 1], initial)
  }

  /** Pauses are passes, and segments are heard passes: together they account for every
      pass. */
  lemma {:induction false} PassesAccounted(ps: seq<Pass>)
    ensures |Kept(ps)| + Empties(ps) == |ps|
  {
    if ps != [] {
      PassesAccounted(ps[..|ps| - 1]);
    }
  }

  /** The figures the loop keeps: the session's segments, pauses and duration, the bodies
      posted and `consecutive_empty`. */
  datatype Tally = Tally(transcript: seq<string>, pauses: int, duration: real, posted: seq<seq<byte>>, consecutive: nat)

  /** One pass of the loop body on the figures. */
  function Step(t: Tally, p: Pass): Tally
  {
    var posted := t.posted + [RequestBody(if p.rate.Some? then p.rate.value else 0, p.rest)];
    if Heard(p) then Tally(t.transcript + [TranscribeAudio(p.reply).value], t.pauses, p.elapsed, posted, 0)
    else Tally(t.transcript, t.pauses + 1, t.duration, posted, if t.consecutive + 1 >= 3 then 0 else t.consecutive + 1)
  }

  /** The figures after the passes, in order. */
  function Fold(t: Tally, ps: seq<Pass>): Tally
  {
    if ps == [] then t else Step(Fold(t, ps[..|ps| - 1]), ps[|ps| - 1])
  }

  /** The figures `f` after the passes `ps` from `t`: the segments heard, one pause per
      pass with nothing heard, the clock reading of the last heard pass, one body per pass
      and the counter. */
  ghost predicate Means(t: Tally, ps: seq<Pass>, f: Tally) {
    f.transcript == t.transcript + Kept(ps) &&
    f.pauses == t.pauses + Empties(ps) &&
    f.duration == LastElapsed(ps, t.duration) &&
    f.posted == t.posted + Bodies(ps) &&
    f.consecutive == Counter(ps)
  }

  lemma FoldSnoc(t: Tally, ps: seq<Pass>, i: nat)
    requires i < |ps|
    ensures Fold(t, ps[..i + 1]) == Step(Fold(t, ps[..i]), ps[i])
  {
    assert ps[..i + 1][..i] == ps[..i];
  }

  /** What the loop's figures mean: the segments heard, one pause per pass with nothing heard,
      the clock reading of the last heard pass, one body per pass and the counter. */
  lemma {:induction false} FoldMeans(t: Tally, ps: seq<Pass>)
    requires t.consecutive == 0
    ensures Means(t, ps, Fold(t, ps))
  {
    if ps != [] {
      var init := ps[..|ps| - 1];
      FoldMeans(t, init);
      AppendAssoc(t.transcript, Kept(init), if Heard(ps[|ps| - 1]) then [TranscribeAudio(ps[|ps| - 1].reply).value] else []);
      AppendAssoc(t.posted, Bodies(init), [RequestBody(if ps[|ps| - 1].rate.Some? then ps[|ps| - 1].rate.value else 0, ps[|ps| - 1].rest)]);
    }
  }

  class EnhancedLongDictation {
    var session: DictationSession
    var saveTranscripts: bool
    var clipboardOnExit: bool
    var stopEvent: bool

    /** The constructor: a fresh session and the stop event clear. */
    constructor (saveTranscripts: bool, clipboardOnExit: bool)
      ensures this.saveTranscripts == saveTranscripts && this.clipboardOnExit == clipboardOnExit
      ensures !stopEvent && fresh(session)
      ensures session.transcript == [] && session.wordCount == 0 && session.pauses == 0 && session.Valid()
    {
      this.saveTranscripts := saveTranscripts;
      this.clipboardOnExit := clipboardOnExit;
      stopEvent := false;
      session := new DictationSession();
    }

    /** One pass of the loop body after the rate: post the body, transcribe, then either add
        the text or count a pause. */
    method HandlePass(p: Pass, posted: seq<seq<byte>>, consecutive: nat) returns (posted': seq<seq<byte>>, next: nat)
      modifies session
      requires session.Valid() && p.rate.Some?
      ensures session.Valid()
      ensures Tally(session.transcript, session.pauses, session.duration, posted', next) ==
        Step(Tally(old(session.transcript), old(session.pauses), old(session.duration), posted, consecutive), p)
    {
      posted' := posted + [RequestBody(p.rate.value, p.rest)];
      var text := TranscribeAudio(p.reply);
      if text.Some? && text.value != "" {
        session.AddText(text.value);
        next := 0;
        session.duration := p.elapsed;
      } else {
        next := consecutive + 1;
        session.pauses := session.pauses + 1;
        if next >= 3 {
          next := 0;
        }
      }
    }

    /** The `while not self.stop_event.is_set()` loop: the passes it runs leave their
        segments, pauses and clock reading in the session. */
    method Listen(passes: seq<Pass>) returns (posted: seq<seq<byte>>, consecutive: nat)
      modifies session
      requires session.Valid()
      ensures session.Valid()
      ensures Means(Tally(old(session.transcript), old(session.pauses), old(session.duration), [], 0), passes[..Ran(passes)],
                    Tally(session.transcript, session.pauses, session.duration, posted, consecutive))
      ensures consecutive < 3
    {
      ghost var start := Tally(session.transcript, session.pauses, session.duration, [], 0);
      posted := [];
      consecutive := 0;
      var i := 0;
      while i < |passes|
        invariant 0 <= i <= |passes| && i + Ran(passes[i..]) == Ran(passes)
        invariant session.Valid()
        invariant Tally(session.transcript, session.pauses, session.duration, posted, consecutive) == Fold(start, passes[..i])
      {
        var p := passes[i];
        RanAt(passes, i);
        if p.rate.None? {
          assert i == Ran(passes);
          break;
        }
        FoldSnoc(start, passes, i);
        posted, consecutive := HandlePass(p, posted, consecutive);
        i := i + 1;
        if p.stop {
          assert i == Ran(passes);
          break;
        }
      }
      if i == |passes| {
        assert passes[i..] == [];
        assert i == Ran(passes);
      }
      FoldMeans(start, passes[..i]);
      CounterIsTrailingEmpty(passes[..i]);
    }

    /** `run`: the health check, then the loop until the recorder gives out or the stop event
        is set, then the final save, the clipboard copy and 0. `posted` holds the body of each
        pass and `consecutive` the final `consecutive_empty`. A stop event already set (a signal
        that reached the handlers installed by the constructor) means the loop runs no pass. */
    method Run(health: HealthCheck, passes: seq<Pass>)
      returns (end: RunEnd, posted: seq<seq<byte>>, consecutive: nat)
      modifies this`stopEvent, session
      requires session.Valid()
      ensures health.HealthRaised? ==> end.Raised?
      ensures health.Unreachable? || (health.Status? && health.code != 200) ==> end == Finished(1, None, None)
      ensures health != Status(200) ==> unchanged(session) && stopEvent == old(stopEvent)
      ensures session == old(session) && session.Valid()
      ensures health == Status(200) ==>
        var k := if old(stopEvent) then 0 else Ran(passes);
        session.transcript == old(session.transcript) + Kept(passes[..k]) &&
        session.pauses == old(session.pauses) + Empties(passes[..k]) &&
        session.duration == LastElapsed(passes[..k], old(session.duration)) &&
        posted == Bodies(passes[..k]) &&
        consecutive == Counter(passes[..k]) && consecutive < 3 &&
        stopEvent &&
        end == Finished(0,
          if saveTranscripts then Some(Join(session.transcript, " ")) else None,
          if clipboardOnExit && Join(session.transcript, " ") != "" then Some(Join(session.transcript, " ")) else None)
    {
      posted := [];
      consecutive := 0;
      if health.HealthRaised? {
        return Raised, posted, consecutive;
      }
      if health != Status(200) {
        return Finished(1, None, None), posted, consecutive;
      }
      if stopEvent {
        assert passes[..0] == [];
      } else {
        posted, consecutive := Listen(passes);
      }
      stopEvent := true;
      var full := session.FullText();
      var saved := if saveTranscripts then Some(full) else None;
      var clipboard := if clipboardOnExit && full != "" then Some(full) else None;
      end := Finished(0, saved, clipboard);
    }
  }

  /** Whatever the passes, the words counted at the end are the words of the saved full text:
      the accounting never drifts from the transcript. */
  lemma SavedTextMatchesCount(s: DictationSession)
    requires s.Valid()
    ensures |Words(Join(s.transcript, " "))| == s.wordCount
  {
    TotalWordsOfJoin(s.transcript);
  }
}
