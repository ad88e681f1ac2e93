/** Microphone analysis (src/audio/AudioAnalyzer.ts): an inactive/active
    state machine around the Web Audio resources, and per frame the average
    level of three frequency bands and of the whole spectrum, smoothed
    exponentially. The browser objects are reduced to the values the
    analysis reads: the context's sample rate, the analyser's settings and
    the byte spectrum it delivers, which arrives as a parameter. */
module Audio {
  import opened JsMath
  import opened Options

  datatype AudioData = AudioData(bass: real, mids: real, highs: real, volume: real)

  const Silence := AudioData(0.0, 0.0, 0.0, 0.0)

  /** Every level lies in [0, 1]. */
  predicate InUnit(d: AudioData) {
    && 0.0 <= d.bass <= 1.0 && 0.0 <= d.mids <= 1.0
    && 0.0 <= d.highs <= 1.0 && 0.0 <= d.volume <= 1.0
  }

  /** The weight the previous smoothed value keeps each frame. */
  const Smoothing: real := 0.8

  /** The analyser node's own time smoothing, set when the microphone opens. */
  const AnalyserSmoothing: real := 0.8

  /** analyser.fftSize; the analyser then delivers fftSize / 2 bins. */
  const FftSize: nat := 2048
  const BinCount: nat := FftSize / 2

  /** The byte frequency data an analyser writes: one value per bin, each
      an 8-bit level. */
  predicate IsSpectrum(s: seq<int>) {
    forall i :: 0 <= i < |s| ==> 0 <= s[i] <= 255
  }

  // ---------------------------------------------------------------------
  // Band levels

  /** The sum of a run of bins. */
  function Sum(s: seq<int>): int
    decreases |s|
  {
    if s == [] then 0 else Sum(s[..|s| - 1]) + s[|s| - 1]
  }

  /** A run of 8-bit levels sums to between 0 and 255 per bin. */
  lemma {:induction false} SumBounds(s: seq<int>)
    requires IsSpectrum(s)
    ensures 0 <= Sum(s) <= 255 * |s|
    decreases |s|
  {
    if s != [] {
      SumBounds(s[..|s| - 1]);
    }
  }

  /** The inclusive-range summing loop of getFrequencyData. */
  method RangeSum(data: seq<int>, lo: int, hi: int) returns (total: int)
    requires 0 <= lo <= hi < |data|
    ensures total == Sum(data[lo..hi + 1])
  {
    total := 0;
    var i := lo;
    while i <= hi
      invariant lo <= i <= hi + 1
      invariant total == Sum(data[lo..i])
      decreases hi - i
    {
      assert data[lo..i + 1][..i - lo] == data[lo..i];
      total := total + data[i];
      i := i + 1;
    }
  }

  /** A byte sum over `count` bins as a mean level in [0, 1]. */
  function Mean(sum: int, count: int): real
    requires count > 0
  {
    sum as real / count as real / 255.0
  }

  /** The mean level of bins lo..hi (inclusive), scaled from bytes to [0, 1]. */
  function Level(s: seq<int>, lo: int, hi: int): (r: real)
    requires 0 <= lo <= hi < |s| && IsSpectrum(s)
    ensures 0.0 <= r <= 1.0
    ensures Sum(s[lo..hi + 1]) == 0 ==> r == 0.0
  {
    var run := s[lo..hi + 1];
    var count := hi - lo + 1;
    SumBounds(run);
    assert IsSpectrum(run);
    LevelBounds(Sum(run), count);
    Mean(Sum(run), count)
  }

  lemma LevelBounds(sum: int, count: int)
    requires 0 < count && 0 <= sum <= 255 * count
    ensures 0.0 <= Mean(sum, count) <= 1.0
  {
    var q := sum as real / count as real;
    assert q * count as real == sum as real;
    assert q <= 255.0;
  }

  /** The Nyquist frequency spread over the bins: the width of one bin in Hz. */
  function BinSize(sampleRate: real, n: nat): (r: real)
    requires n > 0
    ensures sampleRate > 0.0 ==> r > 0.0
  {
    sampleRate / 2.0 / n as real
  }

  /** `audioContext?.sampleRate || 44100`: a missing or zero rate falls back
      to 44100 Hz. */
  function RateOf(context: Option<AudioContext>): (r: real)
    ensures context.None? ==> r == 44100.0
    ensures context.Some? && context.value.sampleRate != 0.0 ==> r == context.value.sampleRate
    ensures context.Some? && context.value.sampleRate == 0.0 ==> r == 44100.0
  {
    if context.Some? && context.value.sampleRate != 0.0 then context.value.sampleRate else 44100.0
  }

  /** The bin index of a frequency, rounded down. */
  function BinOf(hz: real, binSize: real): int
    requires binSize > 0.0
  {
    (hz / binSize).Floor
  }

  datatype Ranges = Ranges(bassStart: int, bassEnd: int, midsStart: int, midsEnd: int,
                           highsStart: int, highsEnd: int)

  /** Bass is 20-250 Hz, mids 250-2000 Hz, highs 2000-12000 Hz; each
      boundary bin belongs to both bands it separates, and only the top of
      the highs is cut back to the last bin. */
  function BandRanges(binSize: real, n: nat): (b: Ranges)
    requires binSize > 0.0 && n > 0
    ensures 0 <= b.bassStart <= b.bassEnd
    ensures b.bassEnd == b.midsStart <= b.midsEnd && b.midsEnd == b.highsStart
    ensures b.highsEnd == MinInt(BinOf(12000.0, binSize), n - 1)
    ensures b.highsEnd <= n - 1
    ensures b.midsEnd < n ==> b.highsStart <= b.highsEnd
  {
    FloorMonotone(20.0 / binSize, 250.0 / binSize);
    FloorMonotone(250.0 / binSize, 2000.0 / binSize);
    FloorMonotone(2000.0 / binSize, 12000.0 / binSize);
    Ranges(BinOf(20.0, binSize), BinOf(250.0, binSize),
           BinOf(250.0, binSize), BinOf(2000.0, binSize),
           BinOf(2000.0, binSize), MinInt(BinOf(12000.0, binSize), n - 1))
  }

  lemma FloorMonotone(a: real, b: real)
    requires 0.0 <= a <= b
    ensures 0 <= a.Floor <= b.Floor
  {
  }

  /** The spectrum is long enough for the bass and mids ranges, which the
      source reads without a bound check: the top of the mids is a bin. */
  predicate BandsFit(sampleRate: real, n: nat) {
    sampleRate > 0.0 && n > 0 && BinOf(2000.0, BinSize(sampleRate, n)) < n
  }

  /** The unsmoothed levels of one frame: each band's mean and the mean of
      the whole spectrum. */
  function RawLevels(s: seq<int>, sampleRate: real): (r: AudioData)
    requires IsSpectrum(s) && BandsFit(sampleRate, |s|)
    ensures InUnit(r)
    ensures r.volume == Level(s, 0, |s| - 1)
  {
    var b := BandRanges(BinSize(sampleRate, |s|), |s|);
    AudioData(Level(s, b.bassStart, b.bassEnd), Level(s, b.midsStart, b.midsEnd),
              Level(s, b.highsStart, b.highsEnd), Level(s, 0, |s| - 1))
  }

  // ---------------------------------------------------------------------
  // Smoothing

  /** One step of exponential smoothing: the gap to the raw value shrinks
      to 0.8 of what it was, so the result stays between the two. */
  function Smooth(previous: real, raw: real): (r: real)
    ensures r - raw == Smoothing * (previous - raw)
    ensures previous <= raw ==> previous <= r <= raw
    ensures raw <= previous ==> raw <= r <= previous
  {
    previous * Smoothing + raw * (1.0 - Smoothing)
  }

  function SmoothData(previous: AudioData, raw: AudioData): (r: AudioData)
    ensures InUnit(previous) && InUnit(raw) ==> InUnit(r)
    ensures previous == raw ==> r == raw
  {
    AudioData(Smooth(previous.bass, raw.bass), Smooth(previous.mids, raw.mids),
              Smooth(previous.highs, raw.highs), Smooth(previous.volume, raw.volume))
  }

  // ---------------------------------------------------------------------
  // The analyser

  /** What an AudioContext contributes: its sample rate. */
  datatype AudioContext = AudioContext(sampleRate: real)

  /** The analyser node's settings. */
  datatype Analyser = Analyser(fftSize: nat, smoothingTimeConstant: real)

  /** An open microphone stream. */
  datatype MediaStream = MediaStream

  /** What a successful microphone request yields: the sample rate of the
      audio context created for it. */
  datatype Microphone = Microphone(sampleRate: real)

  /** The analyser's fields, as one value. */
  datatype AnalyzerState = AnalyzerState(
    context: Option<AudioContext>,
    analyser: Option<Analyser>,
    dataArray: Option<seq<int>>,
    stream: Option<MediaStream>,
    active: bool,
    smoothed: AudioData)

  /** Every resource released and the levels at zero, as `stop` leaves it. */
  const Released: AnalyzerState := AnalyzerState(None, None, None, None, false, Silence)

  /** `start`: the new state and the answer, given the request's outcome.
      The answer is whether the analyser ends up active, and the smoothed
      levels are carried over. */
  function Started(s: AnalyzerState, grant: Option<Microphone>): (r: (AnalyzerState, bool))
    ensures r.1 <==> r.0.active
    ensures r.0.smoothed == s.smoothed
    ensures s.active || grant.None? ==> r.0 == s
  {
    if s.active then (s, true)
    else if grant.None? then (s, false)
    else
      (s.(stream := Some(MediaStream),
          context := Some(AudioContext(grant.value.sampleRate)),
          analyser := Some(Analyser(FftSize, AnalyserSmoothing)),
          dataArray := Some(seq(BinCount, _ => 0)),
          active := true), true)
  }

  /** `toggle`: an active analyser is stopped and answers no; an inactive
      one is started. Either way the answer is whether it ends up active,
      and the new activity is the negation of the old one unless a start
      was refused. */
  function Toggled(s: AnalyzerState, grant: Option<Microphone>): (r: (AnalyzerState, bool))
    ensures r.1 <==> r.0.active
    ensures s.active ==> r.0 == Released
    ensures !s.active ==> (r.0.active <==> grant.Some?)
  {
    if s.active then (Released, false) else Started(s, grant)
  }

  /** Toggling a released analyser on and then off again, whatever the
      second request would answer, releases it again. */
  lemma ToggleOnOff(s: AnalyzerState, grant: Option<Microphone>, again: Option<Microphone>)
    requires s == Released && grant.Some?
    ensures Toggled(s, grant).1
    ensures Toggled(Toggled(s, grant).0, again) == (s, false)
  {
  }

  /** A second `start` right after a first one is a no-op, whatever its
      request would answer. */
  lemma StartTwice(s: AnalyzerState, grant: Option<Microphone>, again: Option<Microphone>)
    requires grant.Some?
    ensures Started(Started(s, grant).0, again) == (Started(s, grant).0, true)
  {
  }

  class AudioAnalyzer {
    var context: Option<AudioContext>
    var analyser: Option<Analyser>
    var dataArray: Option<seq<int>>
    var stream: Option<MediaStream>
    var active: bool
    var smoothed: AudioData

    /** Active exactly when every resource is present; the data array has
        one byte per bin; while inactive the smoothed levels are zero, and
        they always lie in [0, 1]. */
    ghost predicate Valid()
      reads this
    {
      && (active <==> context.Some? && analyser.Some? && dataArray.Some? && stream.Some?)
      && (analyser.Some? ==> analyser.value == Analyser(FftSize, AnalyserSmoothing))
      && (dataArray.Some? ==> |dataArray.value| == BinCount && IsSpectrum(dataArray.value))
      && (context.Some? ==> BandsFit(RateOf(context), BinCount))
      && (!active ==> smoothed == Silence)
      && InUnit(smoothed)
    }

    constructor ()
      ensures Valid()
      ensures !active && context == None && analyser == None && dataArray == None && stream == None
      ensures smoothed == Silence
    {
      context := None;
      analyser := None;
      dataArray := None;
      stream := None;
      active := false;
      smoothed := Silence;
    }

    function State(): AnalyzerState
      reads this
    {
      AnalyzerState(context, analyser, dataArray, stream, active, smoothed)
    }

    /** The flag agrees with the resources: the analyser is active exactly
        when all of them are present. */
    function IsActive(): (r: bool)
      requires Valid()
      reads this
      ensures r <==> context.Some? && analyser.Some? && dataArray.Some? && stream.Some?
    {
      active
    }

    /** Opens the microphone, given the outcome of the request: already
        active, nothing happens and the answer is yes; refused, nothing
        happens and the answer is no; granted, the stream, the context, an
        analyser with a 2048-point transform and a zeroed data array are
        set up and the analyser becomes active. */
    method Start(grant: Option<Microphone>) returns (ok: bool)
      requires Valid()
      requires grant.Some? ==> BandsFit(RateOf(Some(AudioContext(grant.value.sampleRate))), BinCount)
      modifies this
      ensures Valid()
      ensures old(active) ==> ok && unchanged(this)
      ensures !old(active) && grant.None? ==> !ok && unchanged(this)
      ensures !old(active) && grant.Some? ==>
        && ok && active
        && stream == Some(MediaStream)
        && context == Some(AudioContext(grant.value.sampleRate))
        && analyser == Some(Analyser(FftSize, AnalyserSmoothing))
        && dataArray == Some(seq(BinCount, _ => 0))
        && smoothed == old(smoothed)
      ensures (State(), ok) == Started(old(State()), grant)
    {
      if active {
        return true;
      }
      if grant.None? {
        return false;
      }
      stream := Some(MediaStream);
      context := Some(AudioContext(grant.value.sampleRate));
      analyser := Some(Analyser(FftSize, AnalyserSmoothing));
      dataArray := Some(seq(BinCount, _ => 0));
      active := true;
      ok := true;
    }

    /** Releases every resource and zeroes the smoothed levels; the state
        it leaves does not depend on the one before, so stopping twice is
        stopping once. */
    method Stop()
      requires Valid()
      modifies this
      ensures Valid()
      ensures !active && context == None && analyser == None && dataArray == None && stream == None
      ensures smoothed == Silence
      ensures State() == Released
    {
      stream := None;
      context := None;
      analyser := None;
      dataArray := None;
      active := false;
      smoothed := Silence;
    }

    /** Stops an active analyser and answers no; starts an inactive one. */
    method Toggle(grant: Option<Microphone>) returns (ok: bool)
      requires Valid()
      requires grant.Some? ==> BandsFit(RateOf(Some(AudioContext(grant.value.sampleRate))), BinCount)
      modifies this
      ensures Valid()
      ensures old(active) ==> !ok && !active && smoothed == Silence
      ensures old(active) ==> context == None && analyser == None && dataArray == None && stream == None
      ensures !old(active) ==> ok == grant.Some? && active == grant.Some?
      ensures !old(active) && grant.None? ==> !ok && unchanged(this)
      ensures !old(active) && grant.Some? ==>
        && stream == Some(MediaStream)
        && context == Some(AudioContext(grant.value.sampleRate))
        && analyser == Some(Analyser(FftSize, AnalyserSmoothing))
        && dataArray == Some(seq(BinCount, _ => 0))
        && smoothed == old(smoothed)
      ensures (State(), ok) == Toggled(old(State()), grant)
    {
      if active {
        Stop();
        ok := false;
      } else {
        ok := Start(grant);
      }
    }

    /** The raw levels of one spectrum: each band's mean over its bins, and
        the volume over all of them, on the unit scale. */
    static method BandLevels(buffer: seq<int>, sampleRate: real) returns (raw: AudioData)
      requires IsSpectrum(buffer) && BandsFit(sampleRate, |buffer|)
      ensures raw == RawLevels(buffer, sampleRate)
    {
      var bufferLength := |buffer|;
      var binSize := BinSize(sampleRate, bufferLength);
      var b := BandRanges(binSize, bufferLength);

      var bassSum := RangeSum(buffer, b.bassStart, b.bassEnd);
      var bass := Mean(bassSum, b.bassEnd - b.bassStart + 1);
      var midsSum := RangeSum(buffer, b.midsStart, b.midsEnd);
      var mids := Mean(midsSum, b.midsEnd - b.midsStart + 1);
      var highsSum := RangeSum(buffer, b.highsStart, b.highsEnd);
      var highs := Mean(highsSum, b.highsEnd - b.highsStart + 1);
      var volumeSum := RangeSum(buffer, 0, bufferLength - 1);
      var volume := Mean(volumeSum, bufferLength);

      raw := AudioData(bass, mids, highs, volume);
    }

    /** One frame's levels. Inactive (or without analyser or data array):
        zeros, and nothing changes. Active: the analyser's byte spectrum
        is read into the data array, the band and volume means computed,
        the smoothed levels moved toward them, and a copy returned. */
    method GetFrequencyData(spectrum: seq<int>) returns (data: AudioData)
      requires Valid()
      requires active ==> |spectrum| == BinCount && IsSpectrum(spectrum)
      modifies this
      ensures Valid()
      ensures !old(active) ==> data == Silence && unchanged(this)
      ensures old(active) ==> dataArray == Some(spectrum)
      ensures old(active) ==>
        smoothed == SmoothData(old(smoothed), RawLevels(spectrum, RateOf(context)))
      ensures data == smoothed
      ensures active == old(active) && context == old(context) && analyser == old(analyser)
      ensures stream == old(stream)
    {
      if !active || analyser.None? || dataArray.None? {
        return Silence;
      }
      dataArray := Some(spectrum);
      var buffer := dataArray.value;
      var sampleRate := if context.Some? && context.value.sampleRate != 0.0 then context.value.sampleRate else 44100.0;
      assert sampleRate == RateOf(context);
      var raw := BandLevels(buffer, sampleRate);
      smoothed := SmoothData(smoothed, raw);
      data := smoothed;
    }
  }
}
