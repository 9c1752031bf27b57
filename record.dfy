/** The microphone side of talkat (src/talkat/record.py): the voice-activity segmenter that
    `stream_audio_with_vad` runs as a generator and `record_audio_with_vad` runs to a single
    segment, and the fallback/clamp logic of `calibrate_microphone`.

    The microphone is an input: the sequence of outcomes its `read` calls would have, each
    successful read carrying its bytes and their RMS volume. */
module Record {
  import opened Wrappers
  import opened Seqs
  import opened Text
  import Security

  const RATE: int := 16000
  const SMOOTHING_WINDOW: nat := 3
  /** Frames per read in `record_audio_with_vad`. */
  const RECORD_CHUNK: int := 1024

  /** A successful read: the raw int16 PCM bytes and the RMS volume computed from them. */
  datatype Frame = Frame(data: seq<byte>, volume: real)

  /** One `stream.read` call: an input overflow (OSError with errno paInputOverflowed), any
      other OSError, or data. */
  datatype Read = Overflowed | ReadFailed | Got(frame: Frame)

  /** What `find_microphone` and `p.open` give: no input device, an exception while opening
      the stream (with the text `str(e)` of that exception), or an open stream with the reads
      it will deliver. Running out of reads ends the loop the way a read error does. */
  datatype Device = NoMicrophone | OpenFails(error: string) | Opened(input: seq<Read>)

  /** The notice both recorders send through `safe_subprocess_run` when opening the stream
      raised an exception whose text is `error`. */
  function OpenNotice(error: string): seq<string>
  {
    ["notify-send", "Talkat", "Error opening audio stream: " + error]
  }

  /** Whether `validate_command` rejects that notice. Its SecurityError is raised before the
      process is started, so the `suppress(FileNotFoundError)` around the call lets it out. */
  predicate NoticeRaises(error: string)
  {
    Security.ValidateCommand(OpenNotice(error)).Err?
  }

  /** The notice is rejected exactly when the exception text is not a safe argument: holds a
      shell metacharacter or a backslash before `n` or `r`. */
  lemma NoticeRaisesMeans(error: string)
    ensures NoticeRaises(error) <==> !Security.SafeArg(error)
  {
    var notice := OpenNotice(error);
    Security.SafeAfterPlain("Error opening audio stream: ", error);
    Security.SafeAfterPlain("notify-send", []);
    Security.SafeAfterPlain("Talkat", []);
    assert notice[0] == "notify-send" + [] && notice[1] == "Talkat" + [];
    Security.CommandAccepted(notice);
    assert (forall k | 0 <= k < |notice| :: Security.SafeArg(notice[k])) <==> Security.SafeArg(notice[2]);
  }

  /** PortAudio's text for a missing default device holds parentheses, so the notice meant to
      report it raises instead. */
  lemma MissingDeviceNoticeRaises()
    ensures NoticeRaises("[Errno -9996] Invalid input device (no default output device)")
  {
    var e := "[Errno -9996] Invalid input device (no default output device)";
    assert e[35] == '(';
    NoticeRaisesMeans(e);
  }

  /** An item yielded by the streaming generator: the sample rate first, then audio bytes. */
  datatype Item = Rate(hz: int) | Audio(bytes: seq<byte>)

  /** The segmenter's constants: the silence threshold, the pre-speech deque length and the
      number of quiet chunks tolerated after speech. */
  datatype Vad = Vad(threshold: real, padChunks: nat, maxSilent: int)

  /** The loop variables of both recording loops: `is_speaking`, `speech_has_started_and_padded`,
      `silent_chunks_count`, `pre_speech_buffer` (oldest first) and `volume_history`. */
  datatype VadState = VadState(speaking: bool, padded: bool, silent: int, preBuffer: seq<seq<byte>>, history: seq<real>)

  const Idle: VadState := VadState(false, false, 0, [], [])

  function RealSum(s: seq<real>): real
  {
    if s == [] then 0.0 else s[0] + RealSum(s[1..])
  }

  /** `np.mean` of the smoothing window, which holds one to three volumes. */
  function WindowMean(h: seq<real>): real
    requires 0 < |h| <= SMOOTHING_WINDOW
  {
    if |h| == 1 then h[0] else if |h| == 2 then (h[0] + h[1]) / 2.0 else (h[0] + h[1] + h[2]) / 3.0
  }

  lemma WindowMeanIsMean(h: seq<real>)
    requires 0 < |h| <= SMOOTHING_WINDOW
    ensures WindowMean(h) * (|h| as real) == RealSum(h)
  {
    var t1 := h[1..];
    assert RealSum(h) == h[0] + RealSum(t1);
    if |h| == 1 {
      assert t1 == [];
    } else {
      var t2 := t1[1..];
      assert RealSum(t1) == t1[0] + RealSum(t2);
      if |h| == 2 {
        assert t2 == [];
      } else {
        assert RealSum(t2) == t2[0] + RealSum(t2[1..]);
        assert t2[1..] == [];
      }
    }
  }

  /** `volume_history.append(volume)` on the 3-slot deque. */
  function Smooth(history: seq<real>, volume: real): (h: seq<real>)
    ensures 0 < |h| <= SMOOTHING_WINDOW
  {
    PushBounded(history, volume, SMOOTHING_WINDOW)
  }

  datatype StepResult = StepResult(next: VadState, emitted: seq<seq<byte>>, stop: bool)

  /** One non-empty chunk through the segmenter. `streaming` selects the generator's variant,
      which clears the pre-speech buffer on the trigger and stops buffering once padded; the
      segment recorder keeps the buffer and always buffers while not speaking. `emitted` is what
      the generator yields (or the recorder appends to its current segment) for this chunk, and
      `stop` is the break once the silence run exceeds its bound. */
  function Step(v: Vad, streaming: bool, st: VadState, f: Frame): StepResult
  {
    var hist := Smooth(st.history, f.volume);
    if WindowMean(hist) > v.threshold then
      if !st.speaking then
        StepResult(VadState(true, streaming, 0, if streaming then [] else st.preBuffer, hist), st.preBuffer + [f.data], false)
      else
        StepResult(st.(silent := 0, history := hist), [f.data], false)
    else if st.speaking then
      StepResult(st.(silent := st.silent + 1, history := hist), [f.data], st.silent + 1 > v.maxSilent)
    else if !streaming || !st.padded then
      StepResult(st.(preBuffer := PushBounded(st.preBuffer, f.data, v.padChunks), history := hist), [], false)
    else
      StepResult(st.(history := hist), [], false)
  }

  /** The segmenter run over a sequence of non-empty chunks until it stops. */
  function VadRun(v: Vad, streaming: bool, st: VadState, fs: seq<Frame>): seq<seq<byte>>
    decreases |fs|
  {
    if fs == [] then []
    else
      var r := Step(v, streaming, st, fs[0]);
      r.emitted + (if r.stop then [] else VadRun(v, streaming, r.next, fs[1..]))
  }

  // ---------------------------------------------------------------------------------------
  // Counting reads

  /** `total_chunks_processed < max_total_chunks`, with None for an infinite limit. */
  predicate Below(limit: Option<int>, processed: int)
  {
    limit.None? || processed < limit.value
  }

  /** The successful reads the loop performs: overflows are skipped without counting, another
      read error ends the loop, and no read happens once the limit is reached. */
  function Counted(input: seq<Read>, limit: Option<int>, processed: int): seq<Frame>
  {
    if input == [] || !Below(limit, processed) then []
    else match input[0]
      case Overflowed => Counted(input[1..], limit, processed)
      case ReadFailed => []
      case Got(f) => [f] + Counted(input[1..], limit, processed + 1)
  }

  predicate IsNonEmpty(f: Frame)
  {
    |f.data| > 0
  }

  /** The chunks that reach the segmenter: counted reads that are not empty. */
  function Frames(input: seq<Read>, limit: Option<int>): seq<Frame>
  {
    Filter(Counted(input, limit, 0), IsNonEmpty)
  }

  /** The loop never counts more reads than its limit allows. */
  lemma {:induction false} CountedWithinLimit(input: seq<Read>, m: int, processed: int)
    ensures processed + |Counted(input, Some(m), processed)| <= if processed <= m then m else processed
    decreases |input|
  {
    if input != [] && Below(Some(m), processed) {
      match input[0]
      case Overflowed => CountedWithinLimit(input[1..], m, processed);
      case ReadFailed =>
      case Got(f) => CountedWithinLimit(input[1..], m, processed + 1);
    }
  }

  /** An input overflow is invisible: removing it changes nothing that is counted. */
  lemma {:induction false} OverflowSkipped(a: seq<Read>, b: seq<Read>, limit: Option<int>, processed: int)
    ensures Counted(a + [Overflowed] + b, limit, processed) == Counted(a + b, limit, processed)
    decreases |a|
  {
    var s := a + [Overflowed] + b;
    if a == [] {
      assert s[0] == Overflowed && s[1..] == b;
      assert a + b == b;
    } else {
      assert s[0] == a[0] && s[1..] == a[1..] + [Overflowed] + b;
      assert (a + b)[0] == a[0] && (a + b)[1..] == a[1..] + b;
      match a[0]
      case Overflowed => OverflowSkipped(a[1..], b, limit, processed);
      case ReadFailed =>
      case Got(f) => OverflowSkipped(a[1..], b, limit, processed + 1);
    }
  }

  /** Any other read error ends the stream: nothing after it is ever counted. */
  lemma {:induction false} FailureEnds(a: seq<Read>, b: seq<Read>, limit: Option<int>, processed: int)
    ensures Counted(a + [ReadFailed] + b, limit, processed) == Counted(a, limit, processed)
    decreases |a|
  {
    var s := a + [ReadFailed] + b;
    if a == [] {
      assert s[0] == ReadFailed;
    } else {
      assert s[0] == a[0] && s[1..] == a[1..] + [ReadFailed] + b;
      match a[0]
      case Overflowed => FailureEnds(a[1..], b, limit, processed);
      case ReadFailed =>
      case Got(f) => FailureEnds(a[1..], b, limit, processed + 1);
    }
  }

  // ---------------------------------------------------------------------------------------
  // The reference definition of the segment

  /** The bytes of each chunk, in order. */
  function Datas(fs: seq<Frame>): (d: seq<seq<byte>>)
    ensures |d| == |fs|
  {
    if fs == [] then [] else [fs[0].data] + Datas(fs[1..])
  }

  /** The volume of each chunk, in order. */
  function Volumes(fs: seq<Frame>): (d: seq<real>)
    ensures |d| == |fs|
  {
    if fs == [] then [] else [fs[0].volume] + Volumes(fs[1..])
  }

  lemma {:induction false} DatasAppend(a: seq<Frame>, b: seq<Frame>)
    ensures Datas(a + b) == Datas(a) + Datas(b)
    ensures Volumes(a + b) == Volumes(a) + Volumes(b)
  {
    if a == [] {
      assert a + b == b;
    } else {
      assert (a + b)[0] == a[0] && (a + b)[1..] == a[1..] + b;
      DatasAppend(a[1..], b);
      AppendAssoc([a[0].data], Datas(a[1..]), Datas(b));
      AppendAssoc([a[0].volume], Volumes(a[1..]), Volumes(b));
    }
  }

  /** The mean volume of the last (at most) three chunks up to and including chunk `j`. */
  function MeanAt(fs: seq<Frame>, j: nat): real
    requires j < |fs|
  {
    if j == 0 then fs[0].volume
    else if j == 1 then (fs[0].volume + fs[1].volume) / 2.0
    else (fs[j - 2].volume + fs[j - 1].volume + fs[j].volume) / 3.0
  }

  /** `MeanAt` is the mean of the last three volumes of the chunks up to `j`, which is what the
      loops' volume history holds. */
  lemma MeanAtIsHistory(fs: seq<Frame>, j: nat)
    requires j < |fs|
    ensures MeanAt(fs, j) == WindowMean(LastN(Volumes(fs[..j + 1]), SMOOTHING_WINDOW))
  {
    var vs := Volumes(fs[..j + 1]);
    var w := LastN(vs, SMOOTHING_WINDOW);
    VolumeAt(fs[..j + 1], j);
    if j == 0 {
      assert w == vs;
    } else if j == 1 {
      VolumeAt(fs[..j + 1], 0);
      assert w == vs;
    } else {
      VolumeAt(fs[..j + 1], j - 2);
      VolumeAt(fs[..j + 1], j - 1);
      assert w == vs[j - 2..];
      assert w[0] == vs[j - 2] && w[1] == vs[j - 1] && w[2] == vs[j];
    }
  }

  /** Each entry of `Volumes` is the volume of its chunk. */
  lemma {:induction false} VolumeAt(fs: seq<Frame>, k: nat)
    requires k < |fs|
    ensures Volumes(fs)[k] == fs[k].volume
  {
    if k > 0 {
      VolumeAt(fs[1..], k - 1);
    }
  }

  /** Chunk `j` is loud when the mean of the volumes of the last (at most) three chunks up to
      and including it exceeds the threshold. */
  predicate Loud(v: Vad, fs: seq<Frame>, j: nat)
    requires j < |fs|
  {
    MeanAt(fs, j) > v.threshold
  }

  /** The first loud chunk at or after `i`, or `|fs|` when there is none. */
  function FirstLoud(v: Vad, fs: seq<Frame>, i: nat): (t: nat)
    requires i <= |fs|
    ensures i <= t <= |fs|
    decreases |fs| - i
  {
    if i == |fs| then |fs| else if Loud(v, fs, i) then i else FirstLoud(v, fs, i + 1)
  }

  /** Where the speech that is under way at chunk `i`, with `s` quiet chunks already counted,
      ends (exclusive): just after the quiet chunk that makes the run exceed `maxSilent`, or at
      the end of the input. A loud chunk restarts the count. */
  function SpeechEnd(v: Vad, fs: seq<Frame>, i: nat, s: int): (e: nat)
    requires i <= |fs|
    ensures i <= e <= |fs|
    decreases |fs| - i
  {
    if i == |fs| then |fs|
    else if Loud(v, fs, i) then SpeechEnd(v, fs, i + 1, 0)
    else if s + 1 > v.maxSilent then i + 1
    else SpeechEnd(v, fs, i + 1, s + 1)
  }

  /** What the segmenter produces from chunk `j` on when chunks before `j` were quiet: nothing
      if no chunk from `j` on is loud; otherwise the last `padChunks` chunks before the first
      loud one, then every chunk from that one up to the end of the speech. */
  function FromWaiting(v: Vad, fs: seq<Frame>, j: nat): seq<seq<byte>>
    requires j <= |fs|
  {
    FromTrigger(v, fs, FirstLoud(v, fs, j))
  }

  /** The segment when chunk `t` is the first loud one (nothing when `t` is past the end). */
  function FromTrigger(v: Vad, fs: seq<Frame>, t: nat): seq<seq<byte>>
    requires t <= |fs|
  {
    if t == |fs| then [] else LastN(Datas(fs[..t]), v.padChunks) + Datas(fs[t..SpeechEnd(v, fs, t + 1, 0)])
  }

  /** The reference definition of what the segmenter produces from a sequence of chunks. */
  function Segment(v: Vad, fs: seq<Frame>): seq<seq<byte>>
  {
    FromWaiting(v, fs, 0)
  }

  lemma DatasSnoc(fs: seq<Frame>, j: nat)
    requires j < |fs|
    ensures Datas(fs[..j + 1]) == Datas(fs[..j]) + [fs[j].data]
    ensures Volumes(fs[..j + 1]) == Volumes(fs[..j]) + [fs[j].volume]
  {
    assert fs[..j + 1] == fs[..j] + [fs[j]];
    DatasAppend(fs[..j], [fs[j]]);
    assert [fs[j]][1..] == [];
  }

  lemma DatasCons(fs: seq<Frame>, j: nat, e: nat)
    requires j < e <= |fs|
    ensures Datas(fs[j..e]) == [fs[j].data] + Datas(fs[j + 1..e])
  {
    assert fs[j..e][0] == fs[j] && fs[j..e][1..] == fs[j + 1..e];
  }

  /** The history the loop keeps is the last three volumes of the chunks seen so far. */
  lemma HistoryAfter(fs: seq<Frame>, j: nat)
    requires j < |fs|
    ensures Smooth(LastN(Volumes(fs[..j]), SMOOTHING_WINDOW), fs[j].volume) == LastN(Volumes(fs[..j + 1]), SMOOTHING_WINDOW)
    ensures WindowMean(Smooth(LastN(Volumes(fs[..j]), SMOOTHING_WINDOW), fs[j].volume)) == MeanAt(fs, j)
  {
    MeanAtIsHistory(fs, j);
    DatasSnoc(fs, j);
    PushBoundedLastN(Volumes(fs[..j]), fs[j].volume, SMOOTHING_WINDOW);
  }

  /** While speaking: every chunk is emitted until the speech ends. */
  lemma {:induction false} SpeakingPhase(v: Vad, streaming: bool, fs: seq<Frame>, j: nat, s: int, padded: bool, buf: seq<seq<byte>>)
    requires j <= |fs|
    ensures VadRun(v, streaming, VadState(true, padded, s, buf, LastN(Volumes(fs[..j]), SMOOTHING_WINDOW)), fs[j..])
         == Datas(fs[j..SpeechEnd(v, fs, j, s)])
    decreases |fs| - j
  {
    var st := VadState(true, padded, s, buf, LastN(Volumes(fs[..j]), SMOOTHING_WINDOW));
    if j < |fs| {
      HistoryAfter(fs, j);
      var hist := LastN(Volumes(fs[..j + 1]), SMOOTHING_WINDOW);
      var r := Step(v, streaming, st, fs[j]);
      assert fs[j..][0] == fs[j] && fs[j..][1..] == fs[j + 1..];
      var e := SpeechEnd(v, fs, j, s);
      DatasCons(fs, j, e);
      if Loud(v, fs, j) {
        assert r.next == VadState(true, padded, 0, buf, hist);
        SpeakingPhase(v, streaming, fs, j + 1, 0, padded, buf);
      } else if s + 1 > v.maxSilent {
        assert r.stop;
        assert fs[j + 1..e] == [];
      } else {
        assert r.next == VadState(true, padded, s + 1, buf, hist);
        SpeakingPhase(v, streaming, fs, j + 1, s + 1, padded, buf);
      }
    }
  }

  /** One step of `VadRun` on the suffix starting at chunk `j`. */
  lemma VadRunAt(v: Vad, streaming: bool, st: VadState, fs: seq<Frame>, j: nat)
    requires j < |fs|
    ensures var r := Step(v, streaming, st, fs[j]);
      VadRun(v, streaming, st, fs[j..]) == r.emitted + (if r.stop then [] else VadRun(v, streaming, r.next, fs[j + 1..]))
  {
    assert fs[j..][0] == fs[j] && fs[j..][1..] == fs[j + 1..];
  }

  /** The waiting state after the first `j` chunks, all quiet. */
  function Waiting(v: Vad, fs: seq<Frame>, j: nat): VadState
    requires j <= |fs|
  {
    VadState(false, false, 0, LastN(Datas(fs[..j]), v.padChunks), LastN(Volumes(fs[..j]), SMOOTHING_WINDOW))
  }

  lemma QuietWhileWaiting(v: Vad, streaming: bool, fs: seq<Frame>, j: nat)
    requires j < |fs| && !Loud(v, fs, j)
    ensures Step(v, streaming, Waiting(v, fs, j), fs[j]) == StepResult(Waiting(v, fs, j + 1), [], false)
  {
    HistoryAfter(fs, j);
    DatasSnoc(fs, j);
    PushBoundedLastN(Datas(fs[..j]), fs[j].data, v.padChunks);
  }

  lemma LoudWhileWaiting(v: Vad, streaming: bool, fs: seq<Frame>, j: nat)
    requires j < |fs| && Loud(v, fs, j)
    ensures var buf := LastN(Datas(fs[..j]), v.padChunks);
      Step(v, streaming, Waiting(v, fs, j), fs[j])
      == StepResult(VadState(true, streaming, 0, if streaming then [] else buf, LastN(Volumes(fs[..j + 1]), SMOOTHING_WINDOW)), buf + [fs[j].data], false)
  {
    HistoryAfter(fs, j);
  }

  lemma FirstLoudSkip(v: Vad, fs: seq<Frame>, j: nat)
    requires j < |fs| && !Loud(v, fs, j)
    ensures FirstLoud(v, fs, j) == FirstLoud(v, fs, j + 1)
  {
  }

  lemma FromWaitingSkip(v: Vad, fs: seq<Frame>, j: nat)
    requires j < |fs| && !Loud(v, fs, j)
    ensures FromWaiting(v, fs, j) == FromWaiting(v, fs, j + 1)
  {
    FirstLoudSkip(v, fs, j);
  }

  lemma FromWaitingAtLoud(v: Vad, fs: seq<Frame>, j: nat)
    requires j < |fs| && Loud(v, fs, j)
    ensures FromWaiting(v, fs, j) == LastN(Datas(fs[..j]), v.padChunks) + Datas(fs[j..SpeechEnd(v, fs, j + 1, 0)])
  {
    FirstLoudAt(v, fs, j);
  }

  lemma FirstLoudAt(v: Vad, fs: seq<Frame>, j: nat)
    requires j < |fs| && Loud(v, fs, j)
    ensures FirstLoud(v, fs, j) == j
  {
  }

  lemma TriggerAt(v: Vad, streaming: bool, fs: seq<Frame>, j: nat)
    requires j < |fs| && Loud(v, fs, j)
    ensures VadRun(v, streaming, Waiting(v, fs, j), fs[j..]) == FromWaiting(v, fs, j)
  {
    var buf := LastN(Datas(fs[..j]), v.padChunks);
    var e := SpeechEnd(v, fs, j + 1, 0);
    VadRunAt(v, streaming, Waiting(v, fs, j), fs, j);
    LoudWhileWaiting(v, streaming, fs, j);
    SpeakingPhase(v, streaming, fs, j + 1, 0, streaming, if streaming then [] else buf);
    DatasCons(fs, j, e);
    AppendAssoc(buf, [fs[j].data], Datas(fs[j + 1..e]));
    FromWaitingAtLoud(v, fs, j);
  }

  /** Before speech: quiet chunks fill the bounded pre-speech buffer; the first loud chunk
      releases it and starts the speech. */
  lemma {:induction false} WaitingPhase(v: Vad, streaming: bool, fs: seq<Frame>, j: nat)
    requires j <= |fs|
    ensures VadRun(v, streaming, Waiting(v, fs, j), fs[j..]) == FromWaiting(v, fs, j)
    decreases |fs| - j
  {
    if j < |fs| {
      if Loud(v, fs, j) {
        TriggerAt(v, streaming, fs, j);
      } else {
        VadRunAt(v, streaming, Waiting(v, fs, j), fs, j);
        QuietWhileWaiting(v, streaming, fs, j);
        WaitingPhase(v, streaming, fs, j + 1);
        FromWaitingSkip(v, fs, j);
      }
    }
  }

  lemma WaitingAtStart(v: Vad, fs: seq<Frame>)
    ensures Waiting(v, fs, 0) == Idle && fs[0..] == fs
  {
    assert fs[..0] == [];
  }

  /** Both variants of the segmenter produce the reference segment. */
  lemma VadRunIsSegment(v: Vad, streaming: bool, fs: seq<Frame>)
    ensures VadRun(v, streaming, Idle, fs) == Segment(v, fs)
  {
    WaitingAtStart(v, fs);
    WaitingPhase(v, streaming, fs, 0);
    calc {
      VadRun(v, streaming, Idle, fs);
      VadRun(v, streaming, Waiting(v, fs, 0), fs[0..]);
      FromWaiting(v, fs, 0);
    }
  }

  /** `FirstLoud` finds the first loud chunk. */
  lemma {:induction false} FirstLoudIsFirst(v: Vad, fs: seq<Frame>, i: nat)
    requires i <= |fs|
    ensures forall j | i <= j < FirstLoud(v, fs, i) :: !Loud(v, fs, j)
    ensures FirstLoud(v, fs, i) < |fs| ==> Loud(v, fs, FirstLoud(v, fs, i))
    decreases |fs| - i
  {
    if i < |fs| && !Loud(v, fs, i) {
      FirstLoudIsFirst(v, fs, i + 1);
      FirstLoudSkip(v, fs, i);
    }
  }

  /** With a loud chunk, the segment is the released pre-speech chunks, the first loud chunk
      and the rest of the speech. */
  lemma SegmentSplit(v: Vad, fs: seq<Frame>, t: nat, e: nat)
    requires t == FirstLoud(v, fs, 0) && t < |fs| && e == SpeechEnd(v, fs, t + 1, 0)
    ensures Segment(v, fs) == LastN(Datas(fs[..t]), v.padChunks) + ([fs[t].data] + Datas(fs[t + 1..e]))
  {
    assert Segment(v, fs) == LastN(Datas(fs[..t]), v.padChunks) + Datas(fs[t..e]);
    DatasCons(fs, t, e);
  }

  /** The segment is empty exactly when no chunk is loud; when there is one, the segment
      contains the first loud chunk right after the released pre-speech chunks. */
  lemma SegmentShape(v: Vad, fs: seq<Frame>)
    ensures Segment(v, fs) == [] <==> forall j | 0 <= j < |fs| :: !Loud(v, fs, j)
    ensures FirstLoud(v, fs, 0) < |fs| ==>
      var k := |LastN(Datas(fs[..FirstLoud(v, fs, 0)]), v.padChunks)|;
      k <= v.padChunks && k < |Segment(v, fs)| && Segment(v, fs)[k] == fs[FirstLoud(v, fs, 0)].data
  {
    var t := FirstLoud(v, fs, 0);
    FirstLoudIsFirst(v, fs, 0);
    if t < |fs| {
      SegmentSplit(v, fs, t, SpeechEnd(v, fs, t + 1, 0));
      var pre := LastN(Datas(fs[..t]), v.padChunks);
      assert Segment(v, fs)[|pre|] == fs[t].data;
    }
  }

  // ---------------------------------------------------------------------------------------
  // stream_audio_with_vad

  /** The arguments of `stream_audio_with_vad` after the config lookups: the threshold (the
      config fallback when none was given), the silence duration, the chunk length in ms, the
      maximum duration (None when unlimited) and the pre-speech padding in seconds. `debug` is
      taken to be False: its progress report is left out. */
  datatype StreamParams = StreamParams(threshold: real, silenceDuration: real, chunkSizeMs: int, maxDuration: Option<real>, padding: real)

  /** `CHUNK_SAMPLES = int(RATE * chunk_size_ms / 1000)`. */
  function ChunkSamples(p: StreamParams): int
  {
    Trunc((RATE * p.chunkSizeMs) as real / 1000.0)
  }

  /** `int(duration * RATE / CHUNK_SAMPLES)`, the conversion of seconds into chunks. */
  function ChunksFor(seconds: real, chunkSamples: int): int
    requires chunkSamples != 0
  {
    Trunc(seconds * (RATE as real) / (chunkSamples as real))
  }

  /** Whether the generator gets past the set-up that follows `yield RATE`: a chunk of zero
      samples makes the padding conversion divide by zero, and a negative padding count makes
      `deque(maxlen=...)` raise ValueError. */
  predicate SetUpOk(p: StreamParams)
  {
    ChunkSamples(p) != 0 && ChunksFor(p.padding, ChunkSamples(p)) >= 0
  }

  /** The set-up in the parameters' own terms: a zero chunk length always raises; with a positive
      one, a padding of zero or more never does, and one of a whole chunk's length below zero
      or further always does. */
  lemma StreamSetUp(p: StreamParams)
    ensures p.chunkSizeMs == 0 ==> !SetUpOk(p)
    ensures p.chunkSizeMs > 0 && p.padding >= 0.0 ==> SetUpOk(p)
    ensures p.chunkSizeMs > 0 && p.padding * 1000.0 <= -(p.chunkSizeMs as real) ==> !SetUpOk(p)
  {
    var n := 16 * p.chunkSizeMs;
    assert (RATE * p.chunkSizeMs) as real == 1000.0 * (n as real);
    assert ChunkSamples(p) == n;
    if p.chunkSizeMs > 0 {
      SignOfChunks(p.padding * 16000.0, n as real);
    }
  }

  /** The sign of `int(a / m)` for a positive divisor. */
  lemma SignOfChunks(a: real, m: real)
    requires m > 0.0
    ensures a >= 0.0 ==> Trunc(a / m) >= 0
    ensures a <= -m ==> Trunc(a / m) <= -1
  {
    if a <= -m {
      assert -a >= m;
      assert (-a) / m >= 1.0;
      assert -(a / m) == (-a) / m;
    }
  }

  function StreamLimit(p: StreamParams): Option<int>
    requires ChunkSamples(p) != 0
  {
    if p.maxDuration.None? then None else Some(ChunksFor(p.maxDuration.value, ChunkSamples(p)))
  }

  function StreamVad(p: StreamParams): (v: Vad)
    requires SetUpOk(p)
  {
    Vad(p.threshold, ChunksFor(p.padding, ChunkSamples(p)), ChunksFor(p.silenceDuration, ChunkSamples(p)))
  }

  /** The generator's read loop, read by read, as a function of the remaining reads and the
      loop variables; it returns the audio chunks yielded from here on. */
  function StreamLoop(v: Vad, noVad: bool, limit: Option<int>, input: seq<Read>, processed: int, st: VadState): seq<seq<byte>>
    decreases |input|
  {
    if input == [] || !Below(limit, processed) then []
    else match input[0]
      case Overflowed => StreamLoop(v, noVad, limit, input[1..], processed, st)
      case ReadFailed => []
      case Got(f) =>
        if |f.data| == 0 then StreamLoop(v, noVad, limit, input[1..], processed + 1, st)
        else if noVad then [f.data] + StreamLoop(v, noVad, limit, input[1..], processed + 1, st.(history := Smooth(st.history, f.volume)))
        else
          var r := Step(v, true, st, f);
          r.emitted + (if r.stop then [] else StreamLoop(v, noVad, limit, input[1..], processed + 1, r.next))
  }

  function Audios(chunks: seq<seq<byte>>): (items: seq<Item>)
    ensures |items| == |chunks| && forall i | 0 <= i < |chunks| :: items[i] == Audio(chunks[i])
  {
    seq(|chunks|, i requires 0 <= i < |chunks| => Audio(chunks[i]))
  }

  /** Everything the generator yields; when the set-up raises, that is the rate alone. */
  function StreamItems(p: StreamParams, dev: Device): seq<Item>
  {
    match dev
    case NoMicrophone => []
    case OpenFails(_) => []
    case Opened(input) =>
      if !SetUpOk(p) then [Rate(RATE)]
      else [Rate(RATE)] + Audios(StreamLoop(StreamVad(p), p.threshold == 0.0, StreamLimit(p), input, 0, Idle))
  }

  /** Whether the generator raises instead of ending: when the notice about a failed open is
      rejected, or when the set-up after the open raises. */
  predicate StreamRaises(p: StreamParams, dev: Device)
  {
    (dev.OpenFails? && NoticeRaises(dev.error)) || (dev.Opened? && !SetUpOk(p))
  }

  /** The generator's branches for one non-empty chunk with VAD on, over the loop variables
      `is_speaking`, `speech_has_started_and_padded`, `silent_chunks_count`,
      `pre_speech_buffer` and `volume_history`: what it yields and whether it breaks. */
  method StreamChunk(v: Vad, st: VadState, f: Frame) returns (next: VadState, emitted: seq<seq<byte>>, stop: bool)
    ensures StepResult(next, emitted, stop) == Step(v, true, st, f)
  {
    var speaking, padded, silent, preBuffer := st.speaking, st.padded, st.silent, st.preBuffer;
    var history := Smooth(st.history, f.volume);
    emitted := [];
    stop := false;
    if WindowMean(history) > v.threshold {
      if !speaking {
        speaking := true;
        emitted := emitted + preBuffer;
        preBuffer := [];
        padded := true;
      }
      emitted := emitted + [f.data];
      silent := 0;
    } else if speaking {
      emitted := emitted + [f.data];
      silent := silent + 1;
      if silent > v.maxSilent {
        stop := true;
      }
    } else if !padded {
      preBuffer := PushBounded(preBuffer, f.data, v.padChunks);
    }
    next := VadState(speaking, padded, silent, preBuffer, history);
  }

  /** `stream_audio_with_vad`, returning the items it yields in order. */
  method StreamAudioWithVad(p: StreamParams, dev: Device) returns (items: seq<Item>, raised: bool)
    ensures items == StreamItems(p, dev)
    ensures raised == StreamRaises(p, dev)
  {
    raised := false;
    if dev.NoMicrophone? {
      return [], raised;
    }
    if dev.OpenFails? {
      var notice := Security.ValidateCommand(OpenNotice(dev.error));
      return [], notice.Err?;
    }
    items := [Rate(RATE)];
    if ChunkSamples(p) == 0 || ChunksFor(p.padding, ChunkSamples(p)) < 0 {
      raised := true;
      return;
    }
    var input := dev.input;
    var v := StreamVad(p);
    var noVad := p.threshold == 0.0;
    var limit := StreamLimit(p);
    var st := Idle;
    var processed := 0;
    var out: seq<seq<byte>> := [];
    var i := 0;
    ghost var total := StreamLoop(v, noVad, limit, input, 0, Idle);
    while Below(limit, processed) && i < |input|
      invariant 0 <= i <= |input|
      invariant out + StreamLoop(v, noVad, limit, input[i..], processed, st) == total
      decreases |input| - i
    {
      ghost var out0 := out;
      StreamLoopAt(v, noVad, limit, input, i, processed, st);
      var r := input[i];
      i := i + 1;
      if r.Overflowed? {
        continue;
      }
      if r.ReadFailed? {
        assert out == total;
        break;
      }
      var f := r.frame;
      processed := processed + 1;
      if |f.data| == 0 {
        continue;
      }
      if noVad {
        st := st.(history := Smooth(st.history, f.volume));
        out := out + [f.data];
        AppendAssoc(out0, [f.data], StreamLoop(v, noVad, limit, input[i..], processed, st));
        continue;
      }
      var next, emitted, stop := StreamChunk(v, st, f);
      out := out + emitted;
      if stop {
        assert out == total;
        break;
      }
      st := next;
      AppendAssoc(out0, emitted, StreamLoop(v, noVad, limit, input[i..], processed, st));
    }
    assert out == total;
    items := items + Audios(out);
  }

  lemma StreamLoopAt(v: Vad, noVad: bool, limit: Option<int>, input: seq<Read>, i: nat, processed: int, st: VadState)
    requires i < |input| && Below(limit, processed)
    ensures StreamLoop(v, noVad, limit, input[i..], processed, st) ==
      match input[i]
      case Overflowed => StreamLoop(v, noVad, limit, input[i + 1..], processed, st)
      case ReadFailed => []
      case Got(f) =>
        if |f.data| == 0 then StreamLoop(v, noVad, limit, input[i + 1..], processed + 1, st)
        else if noVad then [f.data] + StreamLoop(v, noVad, limit, input[i + 1..], processed + 1, st.(history := Smooth(st.history, f.volume)))
        else
          var r := Step(v, true, st, f);
          r.emitted + (if r.stop then [] else StreamLoop(v, noVad, limit, input[i + 1..], processed + 1, r.next))
  {
    assert input[i..][0] == input[i] && input[i..][1..] == input[i + 1..];
  }

  lemma {:induction false} StreamLoopSegments(v: Vad, limit: Option<int>, input: seq<Read>, processed: int, st: VadState)
    ensures StreamLoop(v, false, limit, input, processed, st) == VadRun(v, true, st, Filter(Counted(input, limit, processed), IsNonEmpty))
    decreases |input|
  {
    if input != [] && Below(limit, processed) {
      match input[0]
      case Overflowed => StreamLoopSegments(v, limit, input[1..], processed, st);
      case ReadFailed =>
      case Got(f) =>
        var rest := Counted(input[1..], limit, processed + 1);
        var c := [f] + rest;
        assert c[0] == f && c[1..] == rest;
        if |f.data| == 0 {
          assert Filter(c, IsNonEmpty) == Filter(rest, IsNonEmpty);
          StreamLoopSegments(v, limit, input[1..], processed + 1, st);
        } else {
          var r := Step(v, true, st, f);
          StreamLoopSegments(v, limit, input[1..], processed + 1, r.next);
          var fl := Filter(c, IsNonEmpty);
          assert fl == [f] + Filter(rest, IsNonEmpty);
          assert fl[0] == f && fl[1..] == Filter(rest, IsNonEmpty);
        }
    }
  }

  lemma {:induction false} StreamLoopNoVad(v: Vad, limit: Option<int>, input: seq<Read>, processed: int, st: VadState)
    ensures StreamLoop(v, true, limit, input, processed, st) == Datas(Filter(Counted(input, limit, processed), IsNonEmpty))
    decreases |input|
  {
    if input != [] && Below(limit, processed) {
      match input[0]
      case Overflowed => StreamLoopNoVad(v, limit, input[1..], processed, st);
      case ReadFailed =>
      case Got(f) =>
        var rest := Counted(input[1..], limit, processed + 1);
        var c := [f] + rest;
        assert c[0] == f && c[1..] == rest;
        if |f.data| == 0 {
          assert Filter(c, IsNonEmpty) == Filter(rest, IsNonEmpty);
          StreamLoopNoVad(v, limit, input[1..], processed + 1, st);
        } else {
          StreamLoopNoVad(v, limit, input[1..], processed + 1, st.(history := Smooth(st.history, f.volume)));
          var fl := Filter(rest, IsNonEmpty);
          assert Datas([f] + fl) == [f.data] + Datas(fl);
        }
    }
  }

  /** What the generator yields: nothing without a microphone or an open stream, raising in
      the second case exactly when the exception text is unsafe; otherwise the rate 16000,
      after which a failed set-up raises; past the set-up, in no-VAD mode (threshold 0), every
      non-empty counted chunk in read order, or else the reference segment of those chunks,
      and the generator ends without raising. */
  lemma StreamYields(p: StreamParams, dev: Device)
    ensures dev.NoMicrophone? ==> StreamItems(p, dev) == [] && !StreamRaises(p, dev)
    ensures dev.OpenFails? ==> StreamItems(p, dev) == [] && (StreamRaises(p, dev) <==> !Security.SafeArg(dev.error))
    ensures dev.Opened? ==> StreamItems(p, dev)[..1] == [Rate(16000)]
    ensures dev.Opened? && !SetUpOk(p) ==> StreamItems(p, dev) == [Rate(16000)] && StreamRaises(p, dev)
    ensures dev.Opened? && SetUpOk(p) && p.threshold == 0.0 ==>
      StreamItems(p, dev) == [Rate(16000)] + Audios(Datas(Frames(dev.input, StreamLimit(p)))) && !StreamRaises(p, dev)
    ensures dev.Opened? && SetUpOk(p) && p.threshold != 0.0 ==>
      StreamItems(p, dev) == [Rate(16000)] + Audios(Segment(StreamVad(p), Frames(dev.input, StreamLimit(p)))) && !StreamRaises(p, dev)
  {
    if dev.OpenFails? {
      NoticeRaisesMeans(dev.error);
    }
    if dev.Opened? && SetUpOk(p) {
      var v := StreamVad(p);
      if p.threshold == 0.0 {
        StreamLoopNoVad(v, StreamLimit(p), dev.input, 0, Idle);
      } else {
        StreamLoopSegments(v, StreamLimit(p), dev.input, 0, Idle);
        VadRunIsSegment(v, true, Frames(dev.input, StreamLimit(p)));
      }
    }
  }

  // ---------------------------------------------------------------------------------------
  // record_audio_with_vad

  /** The parameters of `record_audio_with_vad` after the config lookups. */
  datatype RecordParams = RecordParams(threshold: real, silenceDuration: real, maxDuration: real, padding: real)

  function RecordChunks(seconds: real): int
  {
    Trunc(seconds * (RATE as real) / (RECORD_CHUNK as real))
  }

  /** Whether `deque(maxlen=num_pre_padding_chunks)` accepts the padding count. */
  predicate RecordSetUpOk(p: RecordParams)
  {
    RecordChunks(p.padding) >= 0
  }

  /** A padding of zero or more never raises; one of a whole chunk's length below zero or
      further always does. */
  lemma RecordSetUp(p: RecordParams)
    ensures p.padding >= 0.0 ==> RecordSetUpOk(p)
    ensures p.padding * 16000.0 <= -1024.0 ==> !RecordSetUpOk(p)
  {
    SignOfChunks(p.padding * 16000.0, 1024.0);
  }

  function RecordVad(p: RecordParams): Vad
    requires RecordSetUpOk(p)
  {
    Vad(p.threshold, RecordChunks(p.padding), RecordChunks(p.silenceDuration))
  }

  datatype Collected = Collected(frames: seq<seq<byte>>, stopped: bool)

  /** The recorder's read loop: the chunks it appends to the current segment and whether it
      ended by the silence rule. */
  function RecordLoop(v: Vad, limit: int, input: seq<Read>, processed: int, st: VadState): Collected
    decreases |input|
  {
    if input == [] || processed >= limit then Collected([], false)
    else match input[0]
      case Overflowed => RecordLoop(v, limit, input[1..], processed, st)
      case ReadFailed => Collected([], false)
      case Got(f) =>
        if |f.data| == 0 then RecordLoop(v, limit, input[1..], processed + 1, st)
        else
          var r := Step(v, false, st, f);
          if r.stop then Collected(r.emitted, true)
          else
            var rest := RecordLoop(v, limit, input[1..], processed + 1, r.next);
            Collected(r.emitted + rest.frames, rest.stopped)
  }

  /** What raises out of `record_audio_with_vad`: the ValueError of a negative padding count,
      or the SecurityError of the rejected notice about a failed open. */
  datatype RecordError = PaddingRaised | NoticeRejected

  /** What `record_audio_with_vad` returns: None when nothing was recorded, else the recorded
      bytes and the rate; the error when the set-up after opening the stream raises. */
  function RecordResult(p: RecordParams, dev: Device): Result<Option<(seq<byte>, int)>, RecordError>
  {
    match dev
    case NoMicrophone => Ok(None)
    case OpenFails(error) => if NoticeRaises(error) then Err(NoticeRejected) else Ok(None)
    case Opened(input) =>
      if !RecordSetUpOk(p) then Err(PaddingRaised)
      else
        var audio := Concat(RecordLoop(RecordVad(p), RecordChunks(p.maxDuration), input, 0, Idle).frames);
        Ok(if audio == [] then None else Some((audio, RATE)))
  }

  /** `record_audio_with_vad`: the loop, the segment list, the finalisation of a segment cut off
      by the limit or a read error, and the final join. */
  /** The recorder's branches for one non-empty chunk, over the loop variables `is_speaking`,
      `silent_chunks_count`, `pre_speech_buffer` and `volume_history`: what it appends to the
      current segment and whether the segment ends. The recorder has no padded flag, so it
      stays false throughout. */
  method RecordChunk(v: Vad, st: VadState, f: Frame) returns (next: VadState, emitted: seq<seq<byte>>, stop: bool)
    requires !st.padded
    ensures !next.padded
    ensures StepResult(next, emitted, stop) == Step(v, false, st, f)
  {
    var speaking, silent, preBuffer := st.speaking, st.silent, st.preBuffer;
    var history := Smooth(st.history, f.volume);
    emitted := [];
    stop := false;
    if WindowMean(history) > v.threshold {
      if !speaking {
        speaking := true;
        emitted := emitted + preBuffer;
      }
      emitted := emitted + [f.data];
      silent := 0;
    } else if speaking {
      emitted := emitted + [f.data];
      silent := silent + 1;
      if silent > v.maxSilent {
        stop := true;
      }
    } else {
      preBuffer := PushBounded(preBuffer, f.data, v.padChunks);
    }
    next := VadState(speaking, false, silent, preBuffer, history);
  }

  method RecordAudioWithVad(p: RecordParams, dev: Device) returns (r: Result<Option<(seq<byte>, int)>, RecordError>)
    ensures r == RecordResult(p, dev)
  {
    if dev.NoMicrophone? {
      return Ok(None);
    }
    if dev.OpenFails? {
      var notice := Security.ValidateCommand(OpenNotice(dev.error));
      if notice.Err? {
        return Err(NoticeRejected);
      }
      return Ok(None);
    }
    if RecordChunks(p.padding) < 0 {
      return Err(PaddingRaised);
    }
    var input := dev.input;
    var v := RecordVad(p);
    var limit := RecordChunks(p.maxDuration);
    var segments: seq<seq<byte>> := [];
    var current: seq<seq<byte>> := [];
    var st := Idle;
    var processed := 0;
    var i := 0;
    ghost var total := RecordLoop(v, limit, input, 0, Idle).frames;
    ghost var stopped := false;
    while processed < limit && i < |input|
      invariant 0 <= i <= |input|
      invariant segments == [] && !stopped && !st.padded
      invariant current + RecordLoop(v, limit, input[i..], processed, st).frames == total
      decreases |input| - i
    {
      ghost var cur0 := current;
      RecordLoopAt(v, limit, input, i, processed, st);
      var rd := input[i];
      i := i + 1;
      if rd.Overflowed? {
        continue;
      }
      if rd.ReadFailed? {
        assert current == total;
        break;
      }
      var f := rd.frame;
      processed := processed + 1;
      if |f.data| == 0 {
        continue;
      }
      var next, emitted, stop := RecordChunk(v, st, f);
      current := current + emitted;
      if stop {
        assert current == total;
        segments := segments + [Concat(current)];
        current := [];
        stopped := true;
        break;
      }
      st := next;
      AppendAssoc(cur0, emitted, RecordLoop(v, limit, input[i..], processed, st).frames);
    }
    assert stopped ==> segments == [Concat(total)] && current == [];
    assert !stopped ==> segments == [] && current == total;
    if current != [] {
      segments := segments + [Concat(current)];
    }
    assert segments == [] <==> total == [];
    if segments == [] {
      return Ok(None);
    }
    assert segments == [Concat(total)];
    ConcatSingle(Concat(total));
    var audio := Concat(segments);
    if audio == [] {
      return Ok(None);
    }
    return Ok(Some((audio, RATE)));
  }

  lemma RecordLoopAt(v: Vad, limit: int, input: seq<Read>, i: nat, processed: int, st: VadState)
    requires i < |input| && processed < limit
    ensures RecordLoop(v, limit, input[i..], processed, st) ==
      match input[i]
      case Overflowed => RecordLoop(v, limit, input[i + 1..], processed, st)
      case ReadFailed => Collected([], false)
      case Got(f) =>
        if |f.data| == 0 then RecordLoop(v, limit, input[i + 1..], processed + 1, st)
        else
          var r := Step(v, false, st, f);
          if r.stop then Collected(r.emitted, true)
          else
            var rest := RecordLoop(v, limit, input[i + 1..], processed + 1, r.next);
            Collected(r.emitted + rest.frames, rest.stopped)
  {
    assert input[i..][0] == input[i] && input[i..][1..] == input[i + 1..];
  }

  lemma {:induction false} RecordLoopSegments(v: Vad, limit: int, input: seq<Read>, processed: int, st: VadState)
    ensures RecordLoop(v, limit, input, processed, st).frames == VadRun(v, false, st, Filter(Counted(input, Some(limit), processed), IsNonEmpty))
    decreases |input|
  {
    if input != [] && processed < limit {
      match input[0]
      case Overflowed => RecordLoopSegments(v, limit, input[1..], processed, st);
      case ReadFailed =>
      case Got(f) =>
        var rest := Counted(input[1..], Some(limit), processed + 1);
        var c := [f] + rest;
        assert c[0] == f && c[1..] == rest;
        if |f.data| == 0 {
          assert Filter(c, IsNonEmpty) == Filter(rest, IsNonEmpty);
          RecordLoopSegments(v, limit, input[1..], processed + 1, st);
        } else {
          var r := Step(v, false, st, f);
          RecordLoopSegments(v, limit, input[1..], processed + 1, r.next);
          var fl := Filter(c, IsNonEmpty);
          assert fl == [f] + Filter(rest, IsNonEmpty);
          assert fl[0] == f && fl[1..] == Filter(rest, IsNonEmpty);
        }
    }
  }

  lemma {:induction false} ConcatNonEmpty(parts: seq<seq<byte>>, k: nat)
    requires k < |parts| && parts[k] != []
    ensures Concat(parts) != []
  {
    if k > 0 {
      ConcatNonEmpty(parts[1..], k - 1);
    }
  }

  /** When no chunk is empty, the joined segment is empty exactly when no chunk is loud. */
  lemma SegmentJoinEmpty(v: Vad, fs: seq<Frame>)
    requires forall j | 0 <= j < |fs| :: fs[j].data != []
    ensures Concat(Segment(v, fs)) == [] <==> Segment(v, fs) == []
  {
    var seg := Segment(v, fs);
    if seg != [] {
      SegmentShape(v, fs);
      var t := FirstLoud(v, fs, 0);
      ConcatNonEmpty(seg, |LastN(Datas(fs[..t]), v.padChunks)|);
    }
  }

  /** The recorder is the same segmenter: it returns None exactly when no chunk is loud, and
      otherwise the reference segment joined into one byte string, at 16000 Hz. */
  lemma RecordReturns(p: RecordParams, dev: Device)
    ensures dev.NoMicrophone? ==> RecordResult(p, dev) == Ok(None)
    ensures dev.OpenFails? ==> RecordResult(p, dev) == if Security.SafeArg(dev.error) then Ok(None) else Err(NoticeRejected)
    ensures dev.Opened? && !RecordSetUpOk(p) ==> RecordResult(p, dev) == Err(PaddingRaised)
    ensures dev.Opened? && RecordSetUpOk(p) ==>
      var fs := Frames(dev.input, Some(RecordChunks(p.maxDuration)));
      RecordResult(p, dev) == Ok(if Segment(RecordVad(p), fs) == [] then None else Some((Concat(Segment(RecordVad(p), fs)), 16000)))
  {
    if dev.OpenFails? {
      NoticeRaisesMeans(dev.error);
    }
    if dev.Opened? && RecordSetUpOk(p) {
      var v := RecordVad(p);
      var c := Counted(dev.input, Some(RecordChunks(p.maxDuration)), 0);
      var seg := Segment(v, Filter(c, IsNonEmpty));
      RecordLoopSegments(v, RecordChunks(p.maxDuration), dev.input, 0, Idle);
      VadRunIsSegment(v, false, Filter(c, IsNonEmpty));
      FramesNonEmpty(c);
      SegmentJoinEmpty(v, Filter(c, IsNonEmpty));
      RecordResultOf(p, dev.input, seg);
    }
  }

  lemma RecordResultOf(p: RecordParams, input: seq<Read>, seg: seq<seq<byte>>)
    requires RecordSetUpOk(p)
    requires RecordLoop(RecordVad(p), RecordChunks(p.maxDuration), input, 0, Idle).frames == seg
    requires Concat(seg) == [] <==> seg == []
    ensures RecordResult(p, Opened(input)) == Ok(if seg == [] then None else Some((Concat(seg), 16000)))
  {
  }

  /** No chunk that reaches the segmenter is empty. */
  lemma FramesNonEmpty(c: seq<Frame>)
    ensures forall j | 0 <= j < |Filter(c, IsNonEmpty)| :: Filter(c, IsNonEmpty)[j].data != []
  {
    forall j | 0 <= j < |Filter(c, IsNonEmpty)| ensures Filter(c, IsNonEmpty)[j].data != [] {
      FilterNonEmpty(c, j);
    }
  }

  lemma {:induction false} FilterNonEmpty(s: seq<Frame>, t: nat)
    requires t < |Filter(s, IsNonEmpty)|
    ensures Filter(s, IsNonEmpty)[t].data != []
  {
    if s != [] {
      if IsNonEmpty(s[0]) {
        if t > 0 {
          FilterNonEmpty(s[1..], t - 1);
        }
      } else {
        FilterNonEmpty(s[1..], t);
      }
    }
  }

  // ---------------------------------------------------------------------------------------
  // calibrate_microphone

  /** The config values calibration reads: chunk size, sample rate, the threshold fallback and
      the configured threshold bounds. */
  datatype CalibConfig = CalibConfig(chunkSize: int, sampleRate: int, fallback: real, thresholdMin: real, thresholdMax: real)

  /** What propagates out of `calibrate_microphone`: a read that raises inside the loop, or the
      ZeroDivisionError of a zero chunk size. */
  datatype CalibError = ReadRaised | ChunkZero

  /** `int(duration * RATE / CHUNK)`, computed once the stream is open. */
  function ChunksToRead(duration: int, c: CalibConfig): (r: Result<int, CalibError>)
    ensures r.Err? <==> c.chunkSize == 0
    ensures r.Err? ==> r.error == ChunkZero
  {
    if c.chunkSize == 0 then Err(ChunkZero)
    else Ok(Trunc((duration * c.sampleRate) as real / (c.chunkSize as real)))
  }

  /** The two clamps: first into the configured bounds, then into [50, 5000]. */
  function ClampThreshold(p95: real, lo: real, hi: real): real
  {
    var t := if p95 >= lo then p95 else lo;
    var t2 := if t <= hi then t else hi;
    var u := if t2 <= 5000.0 then t2 else 5000.0;
    if 50.0 >= u then 50.0 else u
  }

  lemma ClampBounds(p95: real, lo: real, hi: real)
    ensures 50.0 <= ClampThreshold(p95, lo, hi) <= 5000.0
    ensures lo <= p95 <= hi && 50.0 <= p95 <= 5000.0 ==> ClampThreshold(p95, lo, hi) == p95
  {
  }

  predicate AllGot(input: seq<Read>)
  {
    forall i | 0 <= i < |input| :: input[i].Got?
  }

  function FrameVolumes(input: seq<Read>): (vs: seq<real>)
    requires AllGot(input)
    ensures |vs| == |input|
  {
    seq(|input|, i requires 0 <= i < |input| => input[i].frame.volume)
  }

  /** The calibration outcome. `percentile95` stands for `np.percentile(volumes, 95)`. */
  function Calibration(duration: int, c: CalibConfig, dev: Device, percentile95: seq<real> -> real): Result<real, CalibError>
  {
    match dev
    case NoMicrophone => Ok(c.fallback)
    case OpenFails(_) => Ok(c.fallback)
    case Opened(input) =>
      match ChunksToRead(duration, c)
      case Err(e) => Err(e)
      case Ok(n) =>
        if n <= 0 then Ok(c.fallback)
        else if n > |input| || !AllGot(input[..n]) then Err(ReadRaised)
        else Ok(ClampThreshold(percentile95(FrameVolumes(input[..n])), c.thresholdMin, c.thresholdMax))
  }

  /** `calibrate_microphone`: reads `chunks_to_read` chunks, collecting their volumes. */
  method CalibrateMicrophone(duration: int, c: CalibConfig, dev: Device, percentile95: seq<real> -> real)
    returns (r: Result<real, CalibError>)
    ensures r == Calibration(duration, c, dev, percentile95)
  {
    if dev.NoMicrophone? || dev.OpenFails? {
      return Ok(c.fallback);
    }
    if c.chunkSize == 0 {
      return Err(ChunkZero);
    }
    var input := dev.input;
    var n := Trunc((duration * c.sampleRate) as real / (c.chunkSize as real));
    var volumes: seq<real> := [];
    var i := 0;
    while i < n
      invariant 0 <= i <= (if n < 0 then 0 else n)
      invariant i <= |input| && AllGot(input[..i]) && volumes == FrameVolumes(input[..i])
    {
      if i == |input| || !input[i].Got? {
        assert n > |input| || !AllGot(input[..n]) by {
          if n <= |input| {
            assert !input[..n][i].Got?;
          }
        }
        return Err(ReadRaised);
      }
      assert input[..i + 1] == input[..i] + [input[i]];
      volumes := volumes + [input[i].frame.volume];
      i := i + 1;
    }
    if volumes == [] {
      return Ok(c.fallback);
    }
    return Ok(ClampThreshold(percentile95(volumes), c.thresholdMin, c.thresholdMax));
  }

  /** Calibration yields the fallback without a microphone or an open stream; once the stream
      is open a zero chunk size raises, no chunk to read yields the fallback, a missing or
      failing read raises, and otherwise the result is a threshold in [50, 5000] that equals
      the 95th percentile when that already lies within both bounds. */
  lemma CalibrationBounds(duration: int, c: CalibConfig, dev: Device, percentile95: seq<real> -> real)
    ensures !dev.Opened? ==> Calibration(duration, c, dev, percentile95) == Ok(c.fallback)
    ensures dev.Opened? && c.chunkSize == 0 ==> Calibration(duration, c, dev, percentile95) == Err(ChunkZero)
    ensures dev.Opened? && c.chunkSize != 0 && ChunksToRead(duration, c).value <= 0 ==>
      Calibration(duration, c, dev, percentile95) == Ok(c.fallback)
    ensures dev.Opened? && c.chunkSize != 0 && ChunksToRead(duration, c).value > 0 ==>
      var n := ChunksToRead(duration, c).value;
      (Calibration(duration, c, dev, percentile95) == Err(ReadRaised) <==> n > |dev.input| || !AllGot(dev.input[..n]))
    ensures dev.Opened? && c.chunkSize != 0 && ChunksToRead(duration, c).value > 0 && Calibration(duration, c, dev, percentile95).Ok? ==>
      var x := Calibration(duration, c, dev, percentile95).value;
      var p := percentile95(FrameVolumes(dev.input[..ChunksToRead(duration, c).value]));
      50.0 <= x <= 5000.0 && (c.thresholdMin <= p <= c.thresholdMax && 50.0 <= p <= 5000.0 ==> x == p)
  {
    if dev.Opened? && c.chunkSize != 0 && ChunksToRead(duration, c).value > 0 && Calibration(duration, c, dev, percentile95).Ok? {
      var n := ChunksToRead(duration, c).value;
      ClampBounds(percentile95(FrameVolumes(dev.input[..n])), c.thresholdMin, c.thresholdMax);
    }
  }
}
