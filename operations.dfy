/**
 * The operation records that the command parser produces and the sample
 * processor consumes (dictionaries keyed by `type` in the source).
 */
module Operations {
  datatype Operation =
    | PitchShift(semitones: int)                  // {'type': 'pitch_shift', 'semitones': n}
    | TimeStretch(rate: real)                     // {'type': 'time_stretch', 'rate': r}
    | Filter(filterType: string, cutoff: int)     // {'type': 'filter', 'filter_type': t, 'cutoff': hz}
    | Slice(numSlices: int)                       // {'type': 'slice', 'num_slices': n}
    | Unrecognised(opType: string)                // any other 'type', which the processor skips
}
