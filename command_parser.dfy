/**
 * `CommandParser.parse` and its two field extractors (src/command_parser.py).
 * The text is lowercased and trimmed, classified by keyword, and then every
 * field is read off by one search of the pattern table, in a fixed order.
 */
module Commands {
  import opened Wrappers
  import opened Text
  import opened Operations
  import opened S = Scanners

  /** The three dictionaries `parse` returns, told apart by their `type`. */
  datatype Command =
    | SampleProcess(samplePath: Option<string>, operations: seq<Operation>, insertBar: Option<int>, insertBeat: int)
    | GenerateBeat(genre: string, bpm: Option<int>, key: string, bars: int, include808: bool)
    | Unknown(raw: string)

  /** The exception `float()` raises on a stretch rate such as `.` or `1.2.3`. */
  datatype ParseError = InvalidFloat(token: string)

  /** `command.lower().strip()`. */
  function Normalise(command: string): string {
    Strip(Lower(command))
  }

  predicate SampleWords(n: string) {
    Contains(n, "take") || Contains(n, "load") || Contains(n, "use") || Contains(n, "sample")
  }

  predicate GenerateWords(n: string) {
    Contains(n, "create") || Contains(n, "make") || Contains(n, "generate")
  }

  /** `parse`: the sample keywords win over the generate keywords; anything else is unknown. */
  function Parse(command: string): (r: Result<Command, ParseError>)
    ensures r.Failure? || r.value.SampleProcess? <==> SampleWords(Normalise(command))
    ensures r.Success? && r.value.GenerateBeat? <==> !SampleWords(Normalise(command)) && GenerateWords(Normalise(command))
    ensures r.Success? && r.value.Unknown? <==> !SampleWords(Normalise(command)) && !GenerateWords(Normalise(command))
    ensures r.Success? && r.value.Unknown? ==> r.value.raw == Normalise(command)
  {
    var n := Normalise(command);
    if SampleWords(n) then SampleCommand(n)
    else if GenerateWords(n) then Success(GenerateCommand(n))
    else Success(Unknown(n))
  }

  // ---------------------------------------------------------------------
  // The sample command, field by field
  // ---------------------------------------------------------------------

  /** `sample_path`: the path the `'sample_process'` pattern captures. */
  function SamplePath(s: string): Option<string> {
    match S.Search(S.SampleAt, s)
    case Some(Found(_, m)) => Some(S.Group(s, m.g1))
    case None => None
  }

  /** The number the `'pitch_shift'` pattern captures, with the sign the text gives it. */
  function PitchValue(s: string): Option<int> {
    match S.Search(S.PitchAt, s)
    case Some(Found(_, m)) => Some(IntValue(S.Group(s, m.g1)))
    case None => None
  }

  /** The pitch-shift operation: the captured value, made negative after `pitch down`. */
  function PitchOperation(s: string): Option<Operation> {
    match PitchValue(s)
    case Some(v) => Some(PitchShift(if Contains(s, "pitch down") && v > 0 then -v else v))
    case None => None
  }

  /**
   * The semitones keep the size of the number in the text, and are negative
   * exactly when the text writes a negative number, or writes a positive one
   * and says `pitch down` somewhere.
   */
  lemma PitchSign(s: string)
    requires PitchValue(s).Some?
    ensures PitchOperation(s).Some? && PitchOperation(s).value.PitchShift?
    ensures var n, v := PitchOperation(s).value.semitones, PitchValue(s).value;
      (n == v || n == -v) &&
      (n < 0 <==> v < 0 || (Contains(s, "pitch down") && v > 0))
  {
  }

  /** The time-stretch operation, or the error `float()` raises on the captured token. */
  function StretchOperation(s: string): Result<Option<Operation>, ParseError> {
    match S.Search(S.StretchAt, s)
    case None => Success(None)
    case Some(Found(_, m)) =>
      var token := S.Group(s, m.g1);
      match DecimalValue(token)
      case Some(rate) => Success(Some(TimeStretch(rate)))
      case None => Failure(InvalidFloat(token))
  }

  function FilterOperation(s: string): Option<Operation> {
    match S.Search(S.FilterAt, s)
    case Some(Found(_, m)) => Some(Filter(S.Group(s, m.g1), DigitsValue(S.Group(s, m.g2.value))))
    case None => None
  }

  function SliceOperation(s: string): Option<Operation> {
    match S.Search(S.SliceAt, s)
    case Some(Found(_, m)) => Some(Slice(DigitsValue(S.Group(s, m.g1))))
    case None => None
  }

  /** An optional operation as a list of zero or one. */
  function Present(o: Option<Operation>): seq<Operation> {
    if o.Some? then [o.value] else []
  }

  /** Where the processed sample goes: `insert_bar` and `insert_beat`. */
  datatype Placement = Placement(bar: Option<int>, beat: int)

  /** What the `'insert_position'` pattern alone decides. */
  function InsertMatchPlacement(s: string): Placement {
    match S.Search(S.InsertAt, s)
    case Some(Found(_, m)) => Placement(Some(DigitsValue(S.Group(s, m.g1))), if m.g2.Some? then DigitsValue(S.Group(s, m.g2.value)) else 1)
    case None => Placement(None, 1)
  }

  /** `not result['insert_bar']`: no bar yet, or bar 0. */
  predicate NoBar(p: Placement) {
    p.bar.None? || p.bar.value == 0
  }

  /** The bar number the `'measure_position'` pattern captures. */
  function MeasureNumber(s: string): Option<int> {
    match S.Search(S.MeasureAt, s)
    case Some(Found(_, m)) => Some(DigitsValue(S.Group(s, m.g1)))
    case None => None
  }

  /** The beat number the `'beat_position'` pattern captures. */
  function BeatNumber(s: string): Option<int> {
    match S.Search(S.BeatAt, s)
    case Some(Found(_, m)) => Some(DigitsValue(S.Group(s, m.g1)))
    case None => None
  }

  /** The placement after the measure/bar fallback, which alone consults the beat/count pattern. */
  function InsertPlacement(s: string): Placement {
    var primary := InsertMatchPlacement(s);
    var measure := MeasureNumber(s);
    if measure.Some? && NoBar(primary) then
      Placement(measure, if BeatNumber(s).Some? then BeatNumber(s).value else primary.beat)
    else primary
  }

  /** The operations list, pitch, stretch, filter and slice in that order, or the `float()` error. */
  function SampleOperations(s: string): Result<seq<Operation>, ParseError> {
    match StretchOperation(s)
    case Failure(e) => Failure(e)
    case Success(stretch) => Success(Present(PitchOperation(s)) + Present(stretch) + Present(FilterOperation(s)) + Present(SliceOperation(s)))
  }

  /** The sample command the extractors build from the normalised text `s`. */
  function SampleCommand(s: string): (r: Result<Command, ParseError>)
    ensures r.Success? ==> r.value.SampleProcess?
  {
    match SampleOperations(s)
    case Failure(e) => Failure(e)
    case Success(operations) =>
      var placement := InsertPlacement(s);
      Success(SampleProcess(SamplePath(s), operations, placement.bar, placement.beat))
  }

  /** `_parse_sample_command`: fills in the result one extractor at a time. */
  method ParseSampleCommand(command: string) returns (r: Result<Command, ParseError>)
    ensures r == SampleCommand(command)
  {
    var samplePath: Option<string> := None;
    var sampleMatch := S.Search(S.SampleAt, command);
    if sampleMatch.Some? {
      samplePath := Some(S.Group(command, sampleMatch.value.m.g1));
    }
    assert samplePath == SamplePath(command);

    var operations := AppendOperations(command);
    if operations.Failure? {
      return Failure(operations.error);
    }
    var insertBar, insertBeat := InsertPosition(command);
    r := Success(SampleProcess(samplePath, operations.value, insertBar, insertBeat));
  }

  /** The four operation extractors of `_parse_sample_command`, in their fixed order; `float()` may raise. */
  method AppendOperations(command: string) returns (r: Result<seq<Operation>, ParseError>)
    ensures r == SampleOperations(command)
  {
    var operations := AppendPitch(command, []);
    assert operations == Present(PitchOperation(command));
    var stretched := AppendStretch(command, operations);
    if stretched.Failure? {
      return Failure(stretched.error);
    }
    operations := AppendFilter(command, stretched.value);
    operations := AppendSlice(command, operations);
    r := Success(operations);
  }

  /** The pitch-shift extractor: appends an operation when `'pitch_shift'` matches. */
  method AppendPitch(command: string, operations: seq<Operation>) returns (result: seq<Operation>)
    ensures result == operations + Present(PitchOperation(command))
  {
    result := operations;
    var pitchMatch := S.Search(S.PitchAt, command);
    if pitchMatch.Some? {
      var semitones := IntValue(S.Group(command, pitchMatch.value.m.g1));
      if Contains(command, "pitch down") && semitones > 0 {
        semitones := -semitones;
      }
      result := result + [PitchShift(semitones)];
    }
  }

  /** The time-stretch extractor: appends an operation when `'time_stretch'` matches, unless `float()` raises. */
  method AppendStretch(command: string, operations: seq<Operation>) returns (result: Result<seq<Operation>, ParseError>)
    ensures StretchOperation(command).Failure? ==> result == Failure(StretchOperation(command).error)
    ensures StretchOperation(command).Success? ==> result == Success(operations + Present(StretchOperation(command).value))
  {
    var stretchMatch := S.Search(S.StretchAt, command);
    if stretchMatch.Some? {
      var token := S.Group(command, stretchMatch.value.m.g1);
      var rate := DecimalValue(token);
      if rate.None? {
        return Failure(InvalidFloat(token));
      }
      return Success(operations + [TimeStretch(rate.value)]);
    }
    assert operations + [] == operations;
    return Success(operations);
  }

  /** The filter extractor: appends an operation when `'filter'` matches. */
  method AppendFilter(command: string, operations: seq<Operation>) returns (result: seq<Operation>)
    ensures result == operations + Present(FilterOperation(command))
  {
    result := operations;
    var filterMatch := S.Search(S.FilterAt, command);
    if filterMatch.Some? {
      var m := filterMatch.value.m;
      result := result + [Filter(S.Group(command, m.g1), DigitsValue(S.Group(command, m.g2.value)))];
    }
  }

  /** The slice extractor: appends an operation when `'slice'` matches. */
  method AppendSlice(command: string, operations: seq<Operation>) returns (result: seq<Operation>)
    ensures result == operations + Present(SliceOperation(command))
  {
    result := operations;
    var sliceMatch := S.Search(S.SliceAt, command);
    if sliceMatch.Some? {
      result := result + [Slice(DigitsValue(S.Group(command, sliceMatch.value.m.g1)))];
    }
  }

  /** The insert-position extractor of `_parse_sample_command` and its measure/bar fallback. */
  method InsertPosition(command: string) returns (insertBar: Option<int>, insertBeat: int)
    ensures Placement(insertBar, insertBeat) == InsertPlacement(command)
  {
    insertBar := None;
    insertBeat := 1;
    var insertMatch := S.Search(S.InsertAt, command);
    if insertMatch.Some? {
      var m := insertMatch.value.m;
      insertBar := Some(DigitsValue(S.Group(command, m.g1)));
      insertBeat := if m.g2.Some? then DigitsValue(S.Group(command, m.g2.value)) else 1;
    }
    assert Placement(insertBar, insertBeat) == InsertMatchPlacement(command);

    var measureMatch := S.Search(S.MeasureAt, command);
    if measureMatch.Some? && (insertBar.None? || insertBar.value == 0) {
      insertBar := Some(DigitsValue(S.Group(command, measureMatch.value.m.g1)));
      assert insertBar == MeasureNumber(command);
      var beatMatch := S.Search(S.BeatAt, command);
      if beatMatch.Some? {
        insertBeat := DigitsValue(S.Group(command, beatMatch.value.m.g1));
        assert insertBeat == BeatNumber(command).value;
      }
    }
  }

  // ---------------------------------------------------------------------
  // The generate command, field by field
  // ---------------------------------------------------------------------

  /** The genres the "create a X beat" fallback looks for, in the order it looks. */
  const FallbackGenres: seq<string> := ["memphis", "trap", "lofi", "drill"]

  /** The first of `FallbackGenres[j..]` that occurs in the description. */
  function FallbackGenreFrom(description: string, j: nat): (r: Option<string>)
    requires j <= |FallbackGenres|
    ensures r.Some? ==> exists k | j <= k < |FallbackGenres| ::
                          r.value == FallbackGenres[k] && Contains(description, r.value) &&
                          forall k' | j <= k' < k :: !Contains(description, FallbackGenres[k'])
    ensures r.None? ==> forall k | j <= k < |FallbackGenres| :: !Contains(description, FallbackGenres[k])
    decreases |FallbackGenres| - j
  {
    if j == |FallbackGenres| then None
    else if Contains(description, FallbackGenres[j]) then Some(FallbackGenres[j])
    else FallbackGenreFrom(description, j + 1)
  }

  /** The `for genre in [...]: if genre in description: ...; break` loop. */
  method FallbackGenre(description: string) returns (genre: Option<string>)
    ensures genre == FallbackGenreFrom(description, 0)
  {
    genre := None;
    for j := 0 to |FallbackGenres|
      invariant FallbackGenreFrom(description, 0) == FallbackGenreFrom(description, j)
    {
      if Contains(description, FallbackGenres[j]) {
        genre := Some(FallbackGenres[j]);
        break;
      }
    }
  }

  /** The genre the searches find, before the `trap` default. */
  function FoundGenre(s: string): Option<string> {
    match S.Search(S.GenreAt, s)
    case Some(Found(_, m)) => Some(ReplaceChar(S.Group(s, m.g1), ' ', '_'))
    case None =>
      if Contains(s, "beat") then
        match S.Search(S.CreateAt, s)
        case Some(Found(_, m)) => FallbackGenreFrom(S.Group(s, m.g1), 0)
        case None => None
      else None
  }

  /** `genre`: what the searches found; `trap` when that is nothing (or empty). */
  function GenreField(s: string): string {
    var found := FoundGenre(s);
    if found.Some? && found.value != "" then found.value else "trap"
  }

  function BpmField(s: string): Option<int> {
    match S.Search(S.BpmAt, s)
    case Some(Found(_, m)) => Some(DigitsValue(S.Group(s, m.g1)))
    case None => None
  }

  function KeyField(s: string): string {
    match S.Search(S.KeyAt, s)
    case Some(Found(_, m)) => Upper(S.Group(s, m.g1))
    case None => "C"
  }

  function BarsField(s: string): int {
    match S.Search(S.BarsAt, s)
    case Some(Found(_, m)) => DigitsValue(S.Group(s, m.g1))
    case None => 4
  }

  /** The generate command the extractors build from the normalised text `s`. */
  function GenerateCommand(s: string): Command {
    GenerateBeat(GenreField(s), BpmField(s), KeyField(s), BarsField(s), S.Search(S.With808At, s).Some?)
  }

  /** `_parse_generate_command`: fills in the result one extractor at a time. */
  method ParseGenerateCommand(command: string) returns (r: Command)
    ensures r == GenerateCommand(command)
  {
    var genre: Option<string> := None;
    var bpm: Option<int> := None;
    var key := "C";
    var bars := 4;
    var include808 := false;

    var genreMatch := S.Search(S.GenreAt, command);
    if genreMatch.Some? {
      genre := Some(ReplaceChar(S.Group(command, genreMatch.value.m.g1), ' ', '_'));
    } else if Contains(command, "beat") {
      var beatMatch := S.Search(S.CreateAt, command);
      if beatMatch.Some? {
        var description := S.Group(command, beatMatch.value.m.g1);
        genre := FallbackGenre(description);
      }
    }
    assert genre == FoundGenre(command);

    if genre.None? || genre.value == "" {
      genre := Some("trap");
    }

    var bpmMatch := S.Search(S.BpmAt, command);
    if bpmMatch.Some? {
      bpm := Some(DigitsValue(S.Group(command, bpmMatch.value.m.g1)));
    }

    var keyMatch := S.Search(S.KeyAt, command);
    if keyMatch.Some? {
      key := Upper(S.Group(command, keyMatch.value.m.g1));
    }

    var barsMatch := S.Search(S.BarsAt, command);
    if barsMatch.Some? {
      bars := DigitsValue(S.Group(command, barsMatch.value.m.g1));
    }

    if S.Search(S.With808At, command).Some? {
      include808 := true;
    }

    r := GenerateBeat(genre.value, bpm, key, bars, include808);
  }
}
