/**
 * Sample processing (`SampleProcessor`): slicing a sample into equal parts,
 * the filter dispatch, and running a list of parsed operations over a
 * loaded sample.
 *
 * The signal processing itself (pitch shifting, time stretching and the
 * pre-emphasis filter of the audio library) is not modelled: a `Dsp` value
 * stands for it, as functions on one channel that the model never looks
 * into.  Loading and saving are left to the caller: the loaded sample is a
 * parameter and the sample that would be written is a result.
 */
module Samples {
  import opened Wrappers
  import opened Operations

  /**
   * A loaded sample: a one-dimensional array of samples, or a two-row
   * array with a left and a right channel.
   */
  datatype Audio = Mono(samples: seq<real>) | Stereo(left: seq<real>, right: seq<real>)

  /** `audio.shape[-1]`: the length of the (first) row. */
  function Length(a: Audio): nat {
    match a
    case Mono(s) => |s|
    case Stereo(l, _) => |l|
  }

  /** The rows of the array: one for a mono sample, two for a stereo one. */
  function Channels(a: Audio): seq<seq<real>> {
    match a
    case Mono(s) => [s]
    case Stereo(l, r) => [l, r]
  }

  /** Both rows of a real two-dimensional array have the same length. */
  predicate Rectangular(a: Audio) {
    a.Stereo? ==> |a.left| == |a.right|
  }

  /** The library's signal processing on one channel. */
  datatype Dsp = Dsp(
    pitchShift: (seq<real>, int, int) -> seq<real>,   // librosa.effects.pitch_shift(y, n_steps=, sr=)
    timeStretch: (seq<real>, real) -> seq<real>,      // librosa.effects.time_stretch(y, rate=)
    preemphasis: (seq<real>, real) -> seq<real>)      // librosa.effects.preemphasis(y, coef=)

  /** What a call may end in besides its result: `total // 0` in the slicer. */
  datatype SampleError = ZeroSlices

  /** What `process_command` returns: the processed sample, or the slices of it. */
  datatype Processed = Whole(audio: Audio) | Pieces(parts: seq<Audio>)

  // ---------------------------------------------------------------------
  // Effects, applied row by row
  // ---------------------------------------------------------------------

  /** Applies `f` to the row of a mono sample or to both rows of a stereo one. */
  function MapChannels(a: Audio, f: seq<real> -> seq<real>): (r: Audio)
    ensures r.Mono? <==> a.Mono?
  {
    match a
    case Mono(s) => Mono(f(s))
    case Stereo(l, rt) => Stereo(f(l), f(rt))
  }

  /** `pitch_shift`: each row shifted by `semitones` at rate `sr`. */
  function PitchShiftAudio(dsp: Dsp, a: Audio, semitones: int, sr: int): Audio {
    MapChannels(a, y => dsp.pitchShift(y, semitones, sr))
  }

  /** `time_stretch`: each row stretched by `rate`. */
  function TimeStretchAudio(dsp: Dsp, a: Audio, rate: real): Audio {
    MapChannels(a, y => dsp.timeStretch(y, rate))
  }

  /**
   * `apply_filter`: `lowpass` and `highpass` run the pre-emphasis filter
   * with coefficient -0.97 and 0.97 on each row; every other type, `bandpass`
   * included, returns the sample unchanged.  The cutoff is not used.
   */
  function ApplyFilter(dsp: Dsp, a: Audio, filterType: string, cutoff: int): (r: Audio)
    ensures filterType != "lowpass" && filterType != "highpass" ==> r == a
    ensures filterType == "lowpass" || filterType == "highpass" ==> r.Mono? == a.Mono?
  {
    if filterType == "lowpass" then MapChannels(a, y => dsp.preemphasis(y, -0.97))
    else if filterType == "highpass" then MapChannels(a, y => dsp.preemphasis(y, 0.97))
    else a
  }

  // ---------------------------------------------------------------------
  // Slicing
  // ---------------------------------------------------------------------

  /** Python's `a // b`, which rounds toward minus infinity. */
  function FloorDiv(a: int, b: int): int
    requires b != 0
  {
    if b > 0 then a / b else -((-a) / b) - (if (-a) % b == 0 then 0 else 1)
  }

  /** Python's `s[i:j]` for `0 <= i <= j`: indices past the end are cut to the length. */
  function PySlice(s: seq<real>, i: nat, j: nat): (r: seq<real>)
    requires i <= j
    ensures j <= |s| ==> r == s[i..j]
  {
    var hi := if j <= |s| then j else |s|;
    var lo := if i <= hi then i else hi;
    s[lo..hi]
  }

  /** `audio[start:end]` for a mono sample, `audio[:, start:end]` for a stereo one. */
  function Cut(a: Audio, start: nat, end: nat): Audio
    requires start <= end
  {
    match a
    case Mono(s) => Mono(PySlice(s, start, end))
    case Stereo(l, r) => Stereo(PySlice(l, start, end), PySlice(r, start, end))
  }

  /** Where slice `i` of `n` starts in a sample of `total` samples. */
  function SliceStart(total: nat, n: int, i: nat): nat
    requires n > 0
  {
    i * (total / n)
  }

  /** Where it ends: one slice length later, except that the last slice runs to the end. */
  function SliceEnd(total: nat, n: int, i: nat): nat
    requires n > 0
  {
    if i < n - 1 then SliceStart(total, n, i) + total / n else total
  }

  /**
   * The slice layout: slice `i` starts at `i * (total // n)`; all but the
   * last have length `total // n`; the last ends at `total` and so is at
   * least as long; each slice ends where the next one starts.
   */
  lemma SliceLayout(total: nat, n: int, i: nat)
    requires n > 0 && i < n
    ensures SliceStart(total, n, i) <= SliceEnd(total, n, i) <= total
    ensures i < n - 1 ==> SliceEnd(total, n, i) - SliceStart(total, n, i) == total / n
    ensures i < n - 1 ==> SliceEnd(total, n, i) == SliceStart(total, n, i + 1)
    ensures i == n - 1 ==> SliceEnd(total, n, i) == total && SliceEnd(total, n, i) - SliceStart(total, n, i) >= total / n
  {
    var q := total / n;
    assert n * q <= total;
    assert i * q <= (n - 1) * q by {
      MulMonotone(i, n - 1, q);
    }
    assert (n - 1) * q + q == n * q;
    assert (i + 1) * q == i * q + q;
    if i < n - 1 {
      MulMonotone(i + 1, n - 1, q);
    }
  }

  lemma MulMonotone(a: nat, b: nat, q: nat)
    requires a <= b
    ensures a * q <= b * q
  {
  }

  /** Slice `i` of `n`. */
  function Piece(a: Audio, n: int, i: nat): Audio
    requires n > 0 && i < n
  {
    SliceLayout(Length(a), n, i);
    Cut(a, SliceStart(Length(a), n, i), SliceEnd(Length(a), n, i))
  }

  /**
   * What `slice_sample(audio, n)` returns: the `n` slices, none for a
   * negative `n` (an empty `range`), and the division error for `n == 0`.
   */
  function SliceParts(a: Audio, n: int): (r: Result<seq<Audio>, SampleError>)
    ensures r.Failure? <==> n == 0
    ensures r.Success? ==> |r.value| == (if n > 0 then n else 0)
  {
    if n == 0 then Failure(ZeroSlices)
    else if n < 0 then Success([])
    else Success(FirstSlices(a, n, n))
  }

  /** The first `k` slices of `n`, in order. */
  function FirstSlices(a: Audio, n: int, k: nat): (r: seq<Audio>)
    requires n > 0 && k <= n
    ensures |r| == k
  {
    if k == 0 then [] else FirstSlices(a, n, k - 1) + [Piece(a, n, k - 1)]
  }

  /** Slice `i` among the first `k` is `Piece(a, n, i)`. */
  lemma {:induction false} FirstSlicesAt(a: Audio, n: int, k: nat, i: nat)
    requires n > 0 && i < k <= n
    ensures FirstSlices(a, n, k)[i] == Piece(a, n, i)
    decreases k
  {
    if i < k - 1 {
      FirstSlicesAt(a, n, k - 1, i);
    }
  }

  /** The rows `c` of the parts, concatenated. */
  function Joined(parts: seq<Audio>, c: nat): seq<real> {
    if parts == [] then []
    else Joined(parts[..|parts| - 1], c) + (if c < |Channels(parts[|parts| - 1])| then Channels(parts[|parts| - 1])[c] else [])
  }

  /** The first `k` slices of a row joined back give the row up to where slice `k - 1` ends. */
  lemma {:induction false} JoinedPrefix(a: Audio, n: int, c: nat, k: nat)
    requires n > 0 && 0 < k <= n && c < |Channels(a)| && |Channels(a)[c]| == Length(a)
    ensures SliceEnd(Length(a), n, k - 1) <= Length(a)
      && Joined(FirstSlices(a, n, k), c) == Channels(a)[c][..SliceEnd(Length(a), n, k - 1)]
  {
    var total, row := Length(a), Channels(a)[c];
    var lo, hi := SliceStart(total, n, k - 1), SliceEnd(total, n, k - 1);
    assert lo <= hi <= total by {
      SliceLayout(total, n, k - 1);
    }
    JoinedLast(a, n, c, k);
    if k == 1 {
      PrefixSplit(row, 0, hi);
    } else {
      JoinedPrefix(a, n, c, k - 1);
      assert SliceEnd(total, n, k - 2) == lo by {
        SliceLayout(total, n, k - 2);
      }
      PrefixSplit(row, lo, hi);
    }
  }

  /** Joining one more slice appends that slice's part of the row. */
  lemma JoinedLast(a: Audio, n: int, c: nat, k: nat)
    requires n > 0 && 0 < k <= n && c < |Channels(a)| && |Channels(a)[c]| == Length(a)
    requires SliceStart(Length(a), n, k - 1) <= SliceEnd(Length(a), n, k - 1) <= Length(a)
    ensures Joined(FirstSlices(a, n, k), c)
      == Joined(FirstSlices(a, n, k - 1), c) + Channels(a)[c][SliceStart(Length(a), n, k - 1)..SliceEnd(Length(a), n, k - 1)]
  {
    var parts := FirstSlices(a, n, k);
    assert parts[..k - 1] == FirstSlices(a, n, k - 1);
    assert parts[k - 1] == Piece(a, n, k - 1);
  }

  lemma PrefixSplit(row: seq<real>, lo: nat, hi: nat)
    requires lo <= hi <= |row|
    ensures row[..lo] + row[lo..hi] == row[..hi]
    ensures lo == 0 ==> [] + row[lo..hi] == row[..hi]
  {
  }

  /**
   * The slices are contiguous and do not overlap: joined back in order,
   * each row of the slices gives that row of the sample (the right row
   * too when both rows have the same length).
   */
  lemma SlicesJoinBack(a: Audio, n: int, c: nat)
    requires n > 0 && c < |Channels(a)| && (c == 0 || Rectangular(a))
    ensures Joined(SliceParts(a, n).value, c) == Channels(a)[c]
  {
    RowLength(a, c);
    JoinedPrefix(a, n, c, n);
    SliceLayout(Length(a), n, n - 1);
    assert SliceParts(a, n).value == FirstSlices(a, n, n);
    assert Channels(a)[c][..Length(a)] == Channels(a)[c];
  }

  lemma RowLength(a: Audio, c: nat)
    requires c < |Channels(a)| && (c == 0 || Rectangular(a))
    ensures |Channels(a)[c]| == Length(a)
  {
  }

  /** Every slice of a `total`-sample sample holds at least `total // n` samples. */
  lemma SliceLengths(a: Audio, n: int)
    requires n > 0
    ensures forall i | 0 <= i < n :: Length(SliceParts(a, n).value[i]) >= Length(a) / n
    ensures forall i | 0 <= i < n - 1 :: Length(SliceParts(a, n).value[i]) == Length(a) / n
  {
    forall i | 0 <= i < n
      ensures Length(SliceParts(a, n).value[i]) == SliceEnd(Length(a), n, i) - SliceStart(Length(a), n, i)
    {
      FirstSlicesAt(a, n, n, i);
      SliceLayout(Length(a), n, i);
    }
    forall i | 0 <= i < n
      ensures SliceEnd(Length(a), n, i) - SliceStart(Length(a), n, i) >= Length(a) / n
      ensures i < n - 1 ==> SliceEnd(Length(a), n, i) - SliceStart(Length(a), n, i) == Length(a) / n
    {
      SliceLayout(Length(a), n, i);
    }
  }

  // ---------------------------------------------------------------------
  // The operation fold
  // ---------------------------------------------------------------------

  /**
   * `process_command` after loading: the operations in list order; the
   * first slice ends the run with the slices of the sample so far; an
   * unrecognised type is skipped.
   */
  function Run(dsp: Dsp, sr: int, a: Audio, ops: seq<Operation>): Result<Processed, SampleError>
    decreases |ops|
  {
    if ops == [] then Success(Whole(a))
    else
      match ops[0]
      case PitchShift(n) => Run(dsp, sr, PitchShiftAudio(dsp, a, n, sr), ops[1..])
      case TimeStretch(rate) => Run(dsp, sr, TimeStretchAudio(dsp, a, rate), ops[1..])
      case Filter(t, cutoff) => Run(dsp, sr, ApplyFilter(dsp, a, t, cutoff), ops[1..])
      case Slice(n) =>
        (match SliceParts(a, n)
         case Success(parts) => Success(Pieces(parts))
         case Failure(e) => Failure(e))
      case Unrecognised(_) => Run(dsp, sr, a, ops[1..])
  }

  /** The effect of one operation that does not end the run. */
  function Step(dsp: Dsp, sr: int, a: Audio, op: Operation): Audio
    requires !op.Slice?
  {
    match op
    case PitchShift(n) => PitchShiftAudio(dsp, a, n, sr)
    case TimeStretch(rate) => TimeStretchAudio(dsp, a, rate)
    case Filter(t, cutoff) => ApplyFilter(dsp, a, t, cutoff)
    case Unrecognised(_) => a
  }

  /** Without a slice the run applies the operations one after the other, first to last. */
  function Applied(dsp: Dsp, sr: int, a: Audio, ops: seq<Operation>): Audio
    requires forall k | 0 <= k < |ops| :: !ops[k].Slice?
  {
    if ops == [] then a else Step(dsp, sr, Applied(dsp, sr, a, ops[..|ops| - 1]), ops[|ops| - 1])
  }

  /** Whether an operation list holds a slice. */
  predicate HasSlice(ops: seq<Operation>) {
    exists k | 0 <= k < |ops| :: ops[k].Slice?
  }

  /** Running `ops1 + ops2` runs `ops1`, and then `ops2` on its result unless `ops1` sliced. */
  lemma {:induction false} RunAppend(dsp: Dsp, sr: int, a: Audio, ops1: seq<Operation>, ops2: seq<Operation>)
    ensures Run(dsp, sr, a, ops1 + ops2) ==
      if Run(dsp, sr, a, ops1).Success? && Run(dsp, sr, a, ops1).value.Whole?
      then Run(dsp, sr, Run(dsp, sr, a, ops1).value.audio, ops2)
      else Run(dsp, sr, a, ops1)
    decreases |ops1|
  {
    if ops1 != [] {
      assert (ops1 + ops2)[0] == ops1[0];
      assert (ops1 + ops2)[1..] == ops1[1..] + ops2;
      match ops1[0]
      case PitchShift(n) => RunAppend(dsp, sr, PitchShiftAudio(dsp, a, n, sr), ops1[1..], ops2);
      case TimeStretch(rate) => RunAppend(dsp, sr, TimeStretchAudio(dsp, a, rate), ops1[1..], ops2);
      case Filter(t, cutoff) => RunAppend(dsp, sr, ApplyFilter(dsp, a, t, cutoff), ops1[1..], ops2);
      case Slice(_) =>
      case Unrecognised(_) => RunAppend(dsp, sr, a, ops1[1..], ops2);
    } else {
      assert ops1 + ops2 == ops2;
    }
  }

  /** Without a slice the run never fails and returns the operations applied in list order. */
  lemma {:induction false} RunWithoutSlice(dsp: Dsp, sr: int, a: Audio, ops: seq<Operation>)
    requires !HasSlice(ops)
    ensures Run(dsp, sr, a, ops) == Success(Whole(Applied(dsp, sr, a, ops)))
  {
    if ops != [] {
      var n := |ops| - 1;
      var init := ops[..n];
      assert !HasSlice(init) by {
        forall k | 0 <= k < n ensures !init[k].Slice? {
          assert init[k] == ops[k];
        }
      }
      RunWithoutSlice(dsp, sr, a, init);
      assert ops == init + [ops[n]];
      RunAppend(dsp, sr, a, init, [ops[n]]);
      assert !ops[n].Slice?;
      var b := Applied(dsp, sr, a, init);
      assert [ops[n]][1..] == [];
      assert Run(dsp, sr, b, [ops[n]]) == Success(Whole(Step(dsp, sr, b, ops[n])));
    }
  }

  /**
   * The first slice decides: the run returns the slices of the sample as
   * the operations before it left it, and nothing after it matters.
   */
  lemma SliceEndsRun(dsp: Dsp, sr: int, a: Audio, ops: seq<Operation>, k: nat)
    requires k < |ops| && ops[k].Slice? && !HasSlice(ops[..k])
    ensures var b := Applied(dsp, sr, a, ops[..k]);
      Run(dsp, sr, a, ops) ==
        match SliceParts(b, ops[k].numSlices)
        case Success(parts) => Success(Pieces(parts))
        case Failure(e) => Failure(e)
  {
    assert ops == ops[..k] + ops[k..];
    RunAppend(dsp, sr, a, ops[..k], ops[k..]);
    RunWithoutSlice(dsp, sr, a, ops[..k]);
    assert ops[k..][0] == ops[k];
  }

  /** Unrecognised operations make no difference anywhere in the list. */
  lemma UnrecognisedSkipped(dsp: Dsp, sr: int, a: Audio, ops1: seq<Operation>, t: string, ops2: seq<Operation>)
    ensures Run(dsp, sr, a, ops1 + [Unrecognised(t)] + ops2) == Run(dsp, sr, a, ops1 + ops2)
  {
    RunAppend(dsp, sr, a, ops1, [Unrecognised(t)] + ops2);
    RunAppend(dsp, sr, a, ops1, ops2);
    assert ops1 + [Unrecognised(t)] + ops2 == ops1 + ([Unrecognised(t)] + ops2);
    assert ([Unrecognised(t)] + ops2)[1..] == ops2;
  }

  // ---------------------------------------------------------------------
  // The processor
  // ---------------------------------------------------------------------

  class SampleProcessor {
    const sampleRate: int

    constructor (sampleRate: int := 44100)
      ensures this.sampleRate == sampleRate
    {
      this.sampleRate := sampleRate;
    }

    /**
     * `slice_sample`: `num_slices` slices of `total // num_slices` samples,
     * the last one running to the end.
     */
    method SliceSample(audio: Audio, numSlices: int) returns (r: Result<seq<Audio>, SampleError>)
      ensures r == SliceParts(audio, numSlices)
    {
      if numSlices == 0 {
        return Failure(ZeroSlices);
      }
      var totalLength := Length(audio);
      var sliceLength := FloorDiv(totalLength, numSlices);
      var slices: seq<Audio> := [];
      var count := if numSlices > 0 then numSlices else 0;
      for i := 0 to count
        invariant numSlices > 0 ==> slices == FirstSlices(audio, numSlices, i)
        invariant numSlices < 0 ==> slices == []
      {
        var start := i * sliceLength;
        var end := if i < numSlices - 1 then start + sliceLength else totalLength;
        SliceLayout(totalLength, numSlices, i);
        var sliceData := Cut(audio, start, end);
        slices := slices + [sliceData];
      }
      return Success(slices);
    }

    /**
     * `process_command` on a sample already loaded at this processor's rate
     * (so that `sr or self.sample_rate` is that rate throughout):
     * the operations in list order, returning at the first slice; the
     * processed sample is saved (here: returned in `saved`) only when an
     * output path is given, is not empty, and no slice ended the run.
     */
    method ProcessCommand(dsp: Dsp, loaded: Audio, operations: seq<Operation>, outputPath: Option<string> := None)
      returns (r: Result<Processed, SampleError>, saved: Option<(string, Audio)>)
      ensures r == Run(dsp, sampleRate, loaded, operations)
      ensures saved.Some? <==> r.Success? && r.value.Whole? && outputPath.Some? && outputPath.value != ""
      ensures saved.Some? ==> saved.value == (outputPath.value, r.value.audio)
    {
      var sr := sampleRate;
      var audio := loaded;
      saved := None;
      for i := 0 to |operations|
        invariant Run(dsp, sr, loaded, operations) == Run(dsp, sr, audio, operations[i..])
      {
        assert operations[i..][0] == operations[i] && operations[i..][1..] == operations[i + 1..];
        match operations[i]
        case PitchShift(semitones) =>
          audio := PitchShiftAudio(dsp, audio, semitones, sr);
        case TimeStretch(rate) =>
          audio := TimeStretchAudio(dsp, audio, rate);
        case Filter(filterType, cutoff) =>
          audio := ApplyFilter(dsp, audio, filterType, cutoff);
        case Slice(numSlices) =>
          var slices := SliceSample(audio, numSlices);
          match slices {
            case Success(parts) => return Success(Pieces(parts)), None;
            case Failure(e) => return Failure(e), None;
          }
        case Unrecognised(_) =>
      }
      assert operations[|operations|..] == [];
      if outputPath.Some? && outputPath.value != "" {
        saved := Some((outputPath.value, audio));
      }
      return Success(Whole(audio)), saved;
    }
  }
}
