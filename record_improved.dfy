/** The alternative `calibrate_microphone` of src/talkat/record_improved.py: a fixed 500.0
    fallback, and a threshold of 2.5 times the 90th percentile clamped into [50, 1000]. */
module RecordImproved {
  import opened Wrappers
  import opened Text
  import opened Record

  const FALLBACK: real := 500.0
  const CHUNK: int := 1024

  /** `int(duration * RATE / CHUNK)`. */
  function ImprovedChunks(duration: int): int
  {
    Trunc((duration * RATE) as real / (CHUNK as real))
  }

  /** `max(2.5 * p90, 50.0)`, then `max(50.0, min(threshold, 1000.0))`. */
  function ImprovedThreshold(p90: real): real
  {
    var t := if p90 * 2.5 >= 50.0 then p90 * 2.5 else 50.0;
    var u := if t <= 1000.0 then t else 1000.0;
    if 50.0 >= u then 50.0 else u
  }

  /** The outcome of the improved calibration; `percentile90` stands for
      `np.percentile(volumes, 90)`. */
  function ImprovedCalibration(duration: int, dev: Device, percentile90: seq<real> -> real): Result<real, CalibError>
  {
    match dev
    case NoMicrophone => Ok(FALLBACK)
    case OpenFails(_) => Ok(FALLBACK)
    case Opened(input) =>
      var n := ImprovedChunks(duration);
      if n <= 0 then Ok(FALLBACK)
      else if n > |input| || !AllGot(input[..n]) then Err(ReadRaised)
      else Ok(ImprovedThreshold(percentile90(FrameVolumes(input[..n]))))
  }

  /** The improved `calibrate_microphone`: the read loop and the threshold. */
  method CalibrateMicrophone(duration: int, dev: Device, percentile90: seq<real> -> real) returns (r: Result<real, CalibError>)
    ensures r == ImprovedCalibration(duration, dev, percentile90)
  {
    if dev.NoMicrophone? || dev.OpenFails? {
      return Ok(FALLBACK);
    }
    var input := dev.input;
    var n := ImprovedChunks(duration);
    var volumes: seq<real> := [];
    var i := 0;
    while i < n
      invariant 0 <= i <= (if n < 0 then 0 else n)
      invariant i <= |input| && AllGot(input[..i]) && volumes == FrameVolumes(input[..i])
    {
      if i == |input| || !input[i].Got? {
        assert n > |input| || !AllGot(input[..n]) by {
          if n <= |input| {
            assert !input[..n][i].Got?;
          }
        }
        return Err(ReadRaised);
      }
      assert input[..i + 1] == input[..i] + [input[i]];
      volumes := volumes + [input[i].frame.volume];
      i := i + 1;
    }
    if volumes == [] {
      return Ok(FALLBACK);
    }
    return Ok(ImprovedThreshold(percentile90(volumes)));
  }

  /** Every threshold the improved calibration returns, the fallback included, lies in
      [50, 1000]; when 2.5 times the 90th percentile already lies there it is returned exactly. */
  lemma ImprovedBounds(duration: int, dev: Device, percentile90: seq<real> -> real)
    ensures !dev.Opened? || ImprovedChunks(duration) <= 0 ==> ImprovedCalibration(duration, dev, percentile90) == Ok(500.0)
    ensures ImprovedCalibration(duration, dev, percentile90).Ok? ==> 50.0 <= ImprovedCalibration(duration, dev, percentile90).value <= 1000.0
    ensures dev.Opened? && 0 < ImprovedChunks(duration) && ImprovedCalibration(duration, dev, percentile90).Ok? ==>
      var p := percentile90(FrameVolumes(dev.input[..ImprovedChunks(duration)]));
      50.0 <= 2.5 * p <= 1000.0 ==> ImprovedCalibration(duration, dev, percentile90).value == 2.5 * p
  {
  }
}
