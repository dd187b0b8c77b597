/**
 * High-level generation (`MusicGenerator`): genre templates, key parsing,
 * complete beats built with a `PatternBuilder`, and random melodies.
 *
 * As in the pattern builder, every random draw is an arbitrary value in its
 * range, and the draws are logged in ghost records so that each result can
 * be stated as a function of its inputs and of those draws.
 */
module Music {
  import opened Wrappers
  import opened Text
  import opened Patterns

  // ---------------------------------------------------------------------
  // The class tables SCALES and GENRE_TEMPLATES
  // ---------------------------------------------------------------------

  /** The scale names, in the order of the `SCALES` dictionary. */
  const ScaleNames: seq<string> :=
    ["major", "minor", "pentatonic_major", "pentatonic_minor", "blues", "harmonic_minor", "dorian"]

  /** `SCALES.get(name)`: the intervals above the root. */
  function ScaleOf(name: string): Option<seq<int>> {
    if name == "major" then Some([0, 2, 4, 5, 7, 9, 11])
    else if name == "minor" then Some([0, 2, 3, 5, 7, 8, 10])
    else if name == "pentatonic_major" then Some([0, 2, 4, 7, 9])
    else if name == "pentatonic_minor" then Some([0, 3, 5, 7, 10])
    else if name == "blues" then Some([0, 3, 5, 6, 7, 10])
    else if name == "harmonic_minor" then Some([0, 2, 3, 5, 7, 8, 11])
    else if name == "dorian" then Some([0, 2, 3, 5, 7, 9, 10])
    else None
  }

  /** One genre template; `tempo_range` is the inclusive pair (minTempo, maxTempo). */
  datatype Template = Template(
    minTempo: int, maxTempo: int, scale: string, drumStyle: string, bassPattern: string, complexity: real)

  /** The genre names, in the order of the `GENRE_TEMPLATES` dictionary. */
  const GenreNames: seq<string> := ["memphis", "trap", "lofi", "boom_bap", "drill"]

  /** `GENRE_TEMPLATES.get(name)`. */
  function TemplateOf(name: string): Option<Template> {
    if name == "memphis" then Some(Template(160, 180, "minor", "memphis", "simple", 0.7))
    else if name == "trap" then Some(TrapTemplate)
    else if name == "lofi" then Some(Template(70, 90, "pentatonic_minor", "lofi", "simple", 0.4))
    else if name == "boom_bap" then Some(Template(85, 95, "minor", "boom_bap", "simple", 0.5))
    else if name == "drill" then Some(Template(140, 150, "harmonic_minor", "trap", "rolling", 0.8))
    else None
  }

  const TrapTemplate: Template := Template(130, 150, "minor", "trap", "bouncy", 0.6)

  /** The dictionaries' keys are exactly the listed names, each listed once. */
  lemma TableKeys()
    ensures forall name :: ScaleOf(name).Some? <==> name in ScaleNames
    ensures forall name :: TemplateOf(name).Some? <==> name in GenreNames
    ensures forall i, j | 0 <= i < j < |ScaleNames| :: ScaleNames[i] != ScaleNames[j]
    ensures forall i, j | 0 <= i < j < |GenreNames| :: GenreNames[i] != GenreNames[j]
  {
  }

  /** Every scale starts on the root and climbs strictly within one octave. */
  lemma ScalesWellFormed(name: string)
    requires ScaleOf(name).Some?
    ensures var sc := ScaleOf(name).value;
      |sc| >= 5 && sc[0] == 0 &&
      (forall i | 0 <= i < |sc| :: 0 <= sc[i] <= 11) &&
      (forall i, j | 0 <= i < j < |sc| :: sc[i] < sc[j])
  {
  }

  /**
   * Every template has an ordered tempo range, a complexity that is a
   * probability, a scale that `SCALES` knows and a bass pattern that the
   * bassline generator knows.
   */
  lemma TemplatesWellFormed(name: string)
    requires TemplateOf(name).Some?
    ensures var t := TemplateOf(name).value;
      70 <= t.minTempo <= t.maxTempo <= 180 && 0.0 <= t.complexity <= 1.0 &&
      ScaleOf(t.scale).Some? && BassStyleOf(t.bassPattern) != NoBass
  {
  }

  // ---------------------------------------------------------------------
  // Keys
  // ---------------------------------------------------------------------

  /** The seventeen spellings `note_map` knows. */
  const NoteNames: seq<string> :=
    ["C", "C#", "Db", "D", "D#", "Eb", "E", "F", "F#", "Gb", "G", "G#", "Ab", "A", "A#", "Bb", "B"]

  /** `note_map.get(name, 60)`: the MIDI note of the name in the octave of middle C, else C. */
  function NoteNumber(name: string): int {
    if name == "C" then 60
    else if name == "C#" || name == "Db" then 61
    else if name == "D" then 62
    else if name == "D#" || name == "Eb" then 63
    else if name == "E" then 64
    else if name == "F" then 65
    else if name == "F#" || name == "Gb" then 66
    else if name == "G" then 67
    else if name == "G#" || name == "Ab" then 68
    else if name == "A" then 69
    else if name == "A#" || name == "Bb" then 70
    else if name == "B" then 71
    else 60
  }

  /** Semitones of the natural notes above C. */
  function Natural(letter: char): int {
    match letter
    case 'C' => 0 case 'D' => 2 case 'E' => 4 case 'F' => 5
    case 'G' => 7 case 'A' => 9 case _ => 11
  }

  /** The note map spells each note as a letter raised by `#` or lowered by `b`. */
  lemma NoteNamesSpelled()
    ensures forall i | 0 <= i < |NoteNames| :: NoteNumber(NoteNames[i]) == Spelled(NoteNames[i])
  {
  }

  /** The note a letter with an optional accidental names, in the octave of middle C. */
  function Spelled(name: string): int
    requires |name| > 0
  {
    60 + Natural(name[0]) + (if |name| == 1 then 0 else if name[1] == '#' then 1 else -1)
  }

  /** `_parse_key`: the root note and the scale a key string names. */
  function ParseKey(key: string, defaultScale: string): (int, string) {
    var k := Strip(key);
    if EndsWith(k, 'm') then (NoteNumber(k[..|k| - 1]), "minor")
    else (NoteNumber(k), if defaultScale == "minor" then "major" else defaultScale)
  }

  /**
   * The scale is `minor` exactly when the stripped key ends in `m`; an
   * unmarked key turns a `minor` default into `major` and keeps any other.
   */
  lemma ParseKeyScale(key: string, defaultScale: string)
    ensures ParseKey(key, defaultScale).1 == "minor" <==> EndsWith(Strip(key), 'm')
    ensures !EndsWith(Strip(key), 'm') ==>
      ParseKey(key, defaultScale).1 == (if defaultScale == "minor" then "major" else defaultScale)
  {
  }

  /** Every name maps into the octave of middle C; a name the map does not know maps to C. */
  lemma NoteNumberRange(name: string)
    ensures 60 <= NoteNumber(name) <= 71
    ensures name !in NoteNames ==> NoteNumber(name) == 60
  {
  }

  /** The root is always a note of the octave of middle C; an unknown name gives C. */
  lemma ParseKeyRoot(key: string, defaultScale: string)
    ensures 60 <= ParseKey(key, defaultScale).0 <= 71
    ensures var k := Strip(key); var name := if EndsWith(k, 'm') then k[..|k| - 1] else k;
      name !in NoteNames ==> ParseKey(key, defaultScale).0 == 60
  {
    var k := Strip(key);
    NoteNumberRange(if EndsWith(k, 'm') then k[..|k| - 1] else k);
  }

  /** A key without surrounding white space is left as it is by `strip()`. */
  lemma StripKeeps(s: string)
    requires s != [] && !IsSpace(s[0]) && !IsSpace(s[|s| - 1])
    ensures Strip(s) == s
  {
  }

  lemma ExampleNotes()
    ensures NoteNumber("D") == 62 && NoteNumber("F#") == 66
  {
  }

  lemma ExampleMinorStrip()
    ensures Strip("Dm") == "Dm"
  {
    StripKeeps("Dm");
  }

  lemma ExampleMajorStrip()
    ensures Strip("F#") == "F#"
  {
    StripKeeps("F#");
  }

  lemma ExamplePlainStrip()
    ensures Strip("C") == "C"
  {
    StripKeeps("C");
  }

  lemma ExampleSpacedStrip()
    ensures Strip(" F#m ") == "F#m"
  {
    var a := " F#m ";
    assert a[1..] == "F#m ";
    assert StripStart(a) == StripStart("F#m ") == "F#m ";
    var b := "F#m ";
    assert b[..3] == "F#m";
    assert StripEnd(b) == StripEnd("F#m") == "F#m";
  }

  /** The docstring's `Dm`, with a minor default: D, minor. */
  lemma ParseKeyMinorExample()
    ensures ParseKey("Dm", "minor") == (62, "minor")
  {
    ExampleNotes();
    ExampleMinorStrip();
    assert "Dm"[..1] == "D";
  }

  /** The docstring's `F#m`, here with white space around it and a major default: F sharp, minor. */
  lemma ParseKeySpacedExample()
    ensures ParseKey(" F#m ", "major") == (66, "minor")
  {
    ExampleNotes();
    ExampleSpacedStrip();
    assert "F#m"[..2] == "F#";
  }

  /** The docstring's `F#`, with a minor default: F sharp, and the unmarked key turns major. */
  lemma ParseKeyMajorExample()
    ensures ParseKey("F#", "minor") == (66, "major")
  {
    ExampleNotes();
    ExampleMajorStrip();
  }

  /** The docstring's `C`, with a minor default: middle C, major. */
  lemma ParseKeyPlainExample()
    ensures ParseKey("C", "minor") == (60, "major")
  {
    ExamplePlainStrip();
    assert NoteNumber("C") == 60;
  }

  // ---------------------------------------------------------------------
  // Genre lookups
  // ---------------------------------------------------------------------

  /** `get_genre_info`: the template of the lower-cased genre, if there is one. */
  function GenreInfo(genre: string): (r: Option<Template>)
    ensures r.Some? <==> Lower(genre) in ListGenres()
  {
    TableKeys();
    TemplateOf(Lower(genre))
  }

  /** `list_genres`: the template names, in table order. */
  function ListGenres(): (r: seq<string>)
    ensures forall name :: name in r <==> TemplateOf(name).Some?
  {
    TableKeys();
    GenreNames
  }

  /** `list_scales`: the scale names, in table order. */
  function ListScales(): (r: seq<string>)
    ensures forall name :: name in r <==> ScaleOf(name).Some?
  {
    TableKeys();
    ScaleNames
  }

  /** The template `generate_beat` uses: that of the lower-cased genre, or trap's. */
  function BeatTemplate(genre: string): Template {
    match TemplateOf(Lower(genre))
    case Some(t) => t
    case None => TrapTemplate
  }

  /** Unknown genres get the trap template. */
  lemma UnknownGenreIsTrap(genre: string)
    ensures GenreInfo(genre).None? ==> BeatTemplate(genre) == TemplateOf("trap").value
    ensures GenreInfo(genre).Some? ==> BeatTemplate(genre) == GenreInfo(genre).value
  {
  }

  /** Whatever the genre and the key, the scale of the beat is one `SCALES` knows. */
  lemma BeatScaleKnown(genre: string, key: string)
    ensures ScaleOf(ParseKey(key, BeatTemplate(genre).scale).1).Some?
  {
    var t := BeatTemplate(genre);
    if TemplateOf(Lower(genre)).Some? {
      TemplatesWellFormed(Lower(genre));
    }
    assert ScaleOf(t.scale).Some?;
  }

  // ---------------------------------------------------------------------
  // Beats
  // ---------------------------------------------------------------------

  /** The dictionary `generate_beat` returns. */
  datatype Beat = Beat(
    genre: string, bpm: int, key: string, bars: int,
    drumPattern: seq<NoteEvent>, bassPattern: seq<NoteEvent>, combinedPattern: seq<NoteEvent>,
    scale: string, rootNote: int)

  /** A bpm of 0 makes the pattern builder divide by zero. */
  datatype BeatError = ZeroBpm

  /**
   * What `generate_beat` promises of beat `b`, given the drum and bass draws
   * the builder made: the caller's genre, key and bar count; the caller's
   * bpm or one from the template's tempo range; the template's drums; the
   * 808 line an octave under the key's root, or nothing; and the two merged
   * in time order.
   */
  ghost predicate IsBeat(genre: string, bpm: Option<int>, key: string, bars: int, include808: bool,
                         b: Beat, drumDraws: seq<DrumDraws>, bassDraws: seq<BassDraw>)
  {
    BeatHeader(genre, bpm, key, bars, b) && BeatDrums(genre, bars, b, drumDraws) &&
    BeatBass(genre, bars, include808, b.bpm, b.rootNote, b.scale, b.bassPattern, bassDraws) && BeatMerge(b)
  }

  /** The returned genre, key and bars are the caller's; root and scale come from the key. */
  ghost predicate BeatHeader(genre: string, bpm: Option<int>, key: string, bars: int, b: Beat) {
    var t := BeatTemplate(genre);
    b.genre == genre && b.key == key && b.bars == bars &&
    (b.rootNote, b.scale) == ParseKey(key, t.scale) &&
    (if bpm.Some? then b.bpm == bpm.value else t.minTempo <= b.bpm <= t.maxTempo) &&
    b.bpm != 0
  }

  /** The drums are the template's style at its complexity, on a 16-step grid at the beat's bpm. */
  ghost predicate BeatDrums(genre: string, bars: int, b: Beat, drumDraws: seq<DrumDraws>)
    requires b.bpm != 0
  {
    var t := BeatTemplate(genre);
    |drumDraws| == TotalSteps(16, bars) && AllDrawsOk(StyleOf(t.drumStyle), 16, drumDraws) &&
    b.drumPattern == Drums(StyleOf(t.drumStyle), 16, StepDuration(b.bpm, 16), t.complexity, drumDraws)
  }

  /** The 808 line, an octave under the root in the beat's scale, or nothing. */
  ghost predicate BeatBass(genre: string, bars: int, include808: bool, tempo: int, rootNote: int, scale: string,
                           bassPattern: seq<NoteEvent>, bassDraws: seq<BassDraw>)
    requires tempo != 0
  {
    var style := BassStyleOf(BeatTemplate(genre).bassPattern);
    if include808 then
      |bassDraws| == BassCount(style, 16, bars) && ScaleOf(scale).Some? &&
      (forall k | 0 <= k < |bassDraws| :: BassDrawOk(style, ScaleOf(scale).value, bassDraws[k])) &&
      bassPattern == Bassline(style, rootNote - 12, 16, StepDuration(tempo, 16), bassDraws)
    else bassPattern == [] && bassDraws == []
  }

  /** The combined pattern is drums then bass, stably sorted by time. */
  ghost predicate BeatMerge(b: Beat) {
    SortedByTime(b.combinedPattern) &&
    multiset(b.combinedPattern) == multiset(b.drumPattern + b.bassPattern) &&
    (forall time :: AtTime(b.combinedPattern, time) == AtTime(b.drumPattern + b.bassPattern, time))
  }

  /** `combine_patterns(a, b)` merges the concatenation `a + b`. */
  lemma FlattenPair(a: seq<NoteEvent>, b: seq<NoteEvent>)
    ensures Flatten([a, b]) == a + b
  {
    assert [a, b][..1] == [a];
    assert [a][..0] == [];
    assert Flatten([a]) == [] + a == a;
  }

  /** Without a bpm the beat's tempo lies in 70..180, whatever the genre. */
  lemma BeatTempo(genre: string, key: string, bars: int, include808: bool,
                  b: Beat, drumDraws: seq<DrumDraws>, bassDraws: seq<BassDraw>)
    requires IsBeat(genre, None, key, bars, include808, b, drumDraws, bassDraws)
    ensures 70 <= b.bpm <= 180
  {
    if TemplateOf(Lower(genre)).Some? {
      TemplatesWellFormed(Lower(genre));
    }
  }

  // ---------------------------------------------------------------------
  // Melodies
  // ---------------------------------------------------------------------

  /** The draws of one melody step: whether a note sounds, its interval, octave jump, velocity and length. */
  datatype MelodyDraw = MelodyDraw(roll: real, interval: int, jumpRoll: real, shift: int, velocity: int, length: int)

  /** The ranges the draws of a step come from; a silent step draws only its roll. */
  predicate MelodyDrawOk(d: MelodyDraw, density: real, intervals: seq<int>) {
    InUnit(d.roll) &&
    (d.roll < density ==>
       d.interval in intervals && InUnit(d.jumpRoll) &&
       (if d.jumpRoll < 0.2 then d.shift == -12 || d.shift == 0 || d.shift == 12 else d.shift == 0) &&
       70 <= d.velocity <= 100 && 1 <= d.length <= 4)
  }

  /** `max(0, min(127, note))`. */
  function Clamp(note: int): (r: int)
    ensures 0 <= r <= 127
    ensures 0 <= note <= 127 ==> r == note
  {
    if note > 127 then 127 else if note < 0 then 0 else note
  }

  /** The melody's scale: the named one, or the minor pentatonic for an unknown name. */
  function MelodyScale(scale: string): (r: seq<int>)
    ensures r != []
  {
    match ScaleOf(scale)
    case Some(intervals) => ScalesWellFormed(scale); intervals
    case None => [0, 3, 5, 7, 10]
  }

  /** The melody's root: the key's pitch class in the requested octave. */
  function MelodyRoot(key: string, scale: string, octave: int): int {
    octave * 12 + ParseKey(key, scale).0 % 12
  }

  function MelodyNote(root: int, sd: real, step: int, d: MelodyDraw): NoteEvent {
    NoteEvent(Clamp(root + d.interval + d.shift), d.velocity, step as real * sd, sd * d.length as real)
  }

  /** The notes of a melody over `|draws|` steps. */
  function Melody(root: int, sd: real, density: real, draws: seq<MelodyDraw>): seq<NoteEvent> {
    if draws == [] then []
    else
      var n := |draws| - 1;
      Melody(root, sd, density, draws[..n]) + (if draws[n].roll < density then [MelodyNote(root, sd, n, draws[n])] else [])
  }

  /** The steps that sound a note, in order. */
  function SoundingSteps(density: real, draws: seq<MelodyDraw>): (r: seq<nat>)
    ensures forall i | 0 <= i < |r| :: r[i] < |draws|
  {
    if draws == [] then []
    else
      var n := |draws| - 1;
      SoundingSteps(density, draws[..n]) + (if draws[n].roll < density then [n] else [])
  }

  /**
   * The sounding steps are, in increasing order, exactly the steps whose
   * roll falls under the density.
   */
  lemma {:induction false} SoundingStepsExact(density: real, draws: seq<MelodyDraw>)
    ensures var steps := SoundingSteps(density, draws);
      (forall i | 0 <= i < |steps| :: steps[i] < |draws| && draws[steps[i]].roll < density) &&
      (forall i, j | 0 <= i < j < |steps| :: steps[i] < steps[j]) &&
      (forall k | 0 <= k < |draws| && draws[k].roll < density :: k in steps)
  {
    if draws != [] {
      var n := |draws| - 1;
      SoundingStepsExact(density, draws[..n]);
      assert forall k | 0 <= k < n :: draws[..n][k] == draws[k];
    }
  }

  /**
   * A melody has one note for each sounding step and none for the others;
   * each note sounds at its step's time, `step * step_duration`.
   */
  lemma {:induction false} MelodyShape(root: int, sd: real, density: real, draws: seq<MelodyDraw>)
    ensures var m, steps := Melody(root, sd, density, draws), SoundingSteps(density, draws);
      |m| == |steps| <= |draws| &&
      forall i | 0 <= i < |steps| :: m[i] == MelodyNote(root, sd, steps[i], draws[steps[i]])
  {
    SoundingStepsExact(density, draws);
    if draws != [] {
      var n := |draws| - 1;
      MelodyShape(root, sd, density, draws[..n]);
      SoundingStepsExact(density, draws[..n]);
      var m', steps' := Melody(root, sd, density, draws[..n]), SoundingSteps(density, draws[..n]);
      forall i | 0 <= i < |steps'|
        ensures draws[..n][steps'[i]] == draws[steps'[i]]
      {
      }
    }
  }

  /** A note of the melody lasts one to four steps. */
  predicate LastsSteps(e: NoteEvent, sd: real) {
    e.duration == sd || e.duration == sd * 2.0 || e.duration == sd * 3.0 || e.duration == sd * 4.0
  }

  lemma NoteRanges(root: int, sd: real, step: int, d: MelodyDraw, density: real, intervals: seq<int>)
    requires MelodyDrawOk(d, density, intervals) && d.roll < density
    ensures var e := MelodyNote(root, sd, step, d);
      0 <= e.note <= 127 && 70 <= e.velocity <= 100 && LastsSteps(e, sd)
  {
    if d.length == 1 {
      assert sd * d.length as real == sd;
    } else if d.length == 2 {
      assert sd * d.length as real == sd * 2.0;
    } else if d.length == 3 {
      assert sd * d.length as real == sd * 3.0;
    } else {
      assert sd * d.length as real == sd * 4.0;
    }
  }

  /** Every note of a melody is a MIDI note, with a velocity in 70..100 and a length of one to four steps. */
  lemma MelodyRanges(root: int, sd: real, density: real, intervals: seq<int>, draws: seq<MelodyDraw>)
    requires forall k | 0 <= k < |draws| :: MelodyDrawOk(draws[k], density, intervals)
    ensures var m := Melody(root, sd, density, draws);
      forall i | 0 <= i < |m| :: 0 <= m[i].note <= 127 && 70 <= m[i].velocity <= 100 && LastsSteps(m[i], sd)
  {
    MelodyShape(root, sd, density, draws);
    SoundingStepsExact(density, draws);
    var m, steps := Melody(root, sd, density, draws), SoundingSteps(density, draws);
    forall i | 0 <= i < |m|
      ensures 0 <= m[i].note <= 127 && 70 <= m[i].velocity <= 100 && LastsSteps(m[i], sd)
    {
      NoteRanges(root, sd, steps[i], draws[steps[i]], density, intervals);
    }
  }

  lemma MelodySnoc(root: int, sd: real, density: real, draws: seq<MelodyDraw>, d: MelodyDraw)
    ensures Melody(root, sd, density, draws + [d]) ==
            Melody(root, sd, density, draws) + (if d.roll < density then [MelodyNote(root, sd, |draws|, d)] else [])
  {
    assert (draws + [d])[..|draws|] == draws;
  }

  // ---------------------------------------------------------------------
  // The generator
  // ---------------------------------------------------------------------

  class MusicGenerator {
    /** The builder of the last beat, or the one the first melody made; `None` at first. */
    var patternBuilder: PatternBuilder?

    ghost predicate Valid()
      reads this
    {
      patternBuilder != null ==> patternBuilder.Valid()
    }

    constructor ()
      ensures Valid() && patternBuilder == null
    {
      patternBuilder := null;
    }

    /**
     * `generate_beat`: a fresh builder at the beat's bpm makes the drums
     * of the genre's template, the 808 line when asked for, and their merge.
     * With a bpm of 0 the builder cannot be made and nothing changes.
     */
    method GenerateBeat(genre: string, bpm: Option<int> := None, key: string := "C", bars: int := 4,
                        include808: bool := true)
      returns (r: Result<Beat, BeatError>, ghost drumDraws: seq<DrumDraws>, ghost bassDraws: seq<BassDraw>)
      requires Valid()
      modifies this
      ensures Valid()
      ensures r.Failure? <==> bpm == Some(0)
      ensures r.Failure? ==> patternBuilder == old(patternBuilder)
      ensures r.Success? ==>
        IsBeat(genre, bpm, key, bars, include808, r.value, drumDraws, bassDraws) &&
        patternBuilder != null && fresh(patternBuilder) &&
        patternBuilder.bpm == r.value.bpm && patternBuilder.stepsPerBar == 16
    {
      drumDraws, bassDraws := [], [];
      var template := BeatTemplate(genre);
      var tempo: int;
      if bpm.Some? {
        tempo := bpm.value;
      } else {
        if TemplateOf(Lower(genre)).Some? {
          TemplatesWellFormed(Lower(genre));
        }
        assert template.minTempo <= template.minTempo <= template.maxTempo;
        tempo :| template.minTempo <= tempo <= template.maxTempo;
      }
      if tempo == 0 {
        return Failure(ZeroBpm), drumDraws, bassDraws;
      }
      var (rootNote, scaleType) := ParseKey(key, template.scale);
      var builder := new PatternBuilder(tempo);
      patternBuilder := builder;
      var drumPattern;
      drumPattern, drumDraws := builder.CreateDrumPattern(template.drumStyle, bars, template.complexity);
      var bassPattern := [];
      if include808 {
        BeatScaleKnown(genre, key);
        var scaleIntervals := ScaleOf(scaleType).value;
        ScalesWellFormed(scaleType);
        bassPattern, bassDraws := builder.Create808Bassline(rootNote - 12, scaleIntervals, bars, template.bassPattern);
      }
      assert BeatBass(genre, bars, include808, tempo, rootNote, scaleType, bassPattern, bassDraws);
      var combinedPattern := builder.CombinePatterns([drumPattern, bassPattern]);
      FlattenPair(drumPattern, bassPattern);
      var beat := Beat(genre, tempo, key, bars, drumPattern, bassPattern, combinedPattern, scaleType, rootNote);
      assert BeatHeader(genre, bpm, key, bars, beat);
      assert BeatDrums(genre, bars, beat, drumDraws);
      assert BeatMerge(beat);
      r := Success(beat);
    }

    /**
     * `generate_melody`: over `steps_per_bar * bars` steps of the current
     * builder (a 120 bpm one if there is none yet), each step sounds a note
     * of the scale, sometimes an octave off, when its roll is under the
     * density.
     */
    method GenerateMelody(key: string := "C", scale: string := "pentatonic_minor", bars: int := 4,
                          noteDensity: real := 0.5, octave: int := 5)
      returns (notes: seq<NoteEvent>, ghost draws: seq<MelodyDraw>)
      requires Valid()
      modifies this
      ensures Valid() && patternBuilder != null
      ensures old(patternBuilder) != null ==> patternBuilder == old(patternBuilder)
      ensures old(patternBuilder) == null ==>
        fresh(patternBuilder) && patternBuilder.bpm == 120 && patternBuilder.stepsPerBar == 16
      ensures |draws| == TotalSteps(patternBuilder.stepsPerBar, bars)
      ensures forall k | 0 <= k < |draws| :: MelodyDrawOk(draws[k], noteDensity, MelodyScale(scale))
      ensures notes == Melody(MelodyRoot(key, scale, octave), patternBuilder.stepDuration, noteDensity, draws)
    {
      var rootNote := MelodyRoot(key, scale, octave);
      var scaleIntervals := MelodyScale(scale);
      var builder := patternBuilder;
      if builder == null {
        builder := new PatternBuilder(120);
        patternBuilder := builder;
      }
      var sd := builder.stepDuration;
      notes, draws := [], [];
      for step := 0 to TotalSteps(builder.stepsPerBar, bars)
        invariant patternBuilder == builder
        invariant |draws| == step
        invariant forall k | 0 <= k < step :: MelodyDrawOk(draws[k], noteDensity, scaleIntervals)
        invariant notes == Melody(rootNote, sd, noteDensity, draws)
      {
        var events, d := MelodyStep(step, rootNote, scaleIntervals, sd, noteDensity);
        MelodySnoc(rootNote, sd, noteDensity, draws, d);
        notes := notes + events;
        draws := draws + [d];
      }
    }

    /** One step of the melody loop: the note it sounds, if its roll is under the density. */
    method MelodyStep(step: int, rootNote: int, scaleIntervals: seq<int>, sd: real, noteDensity: real)
      returns (events: seq<NoteEvent>, ghost d: MelodyDraw)
      requires scaleIntervals != []
      ensures MelodyDrawOk(d, noteDensity, scaleIntervals)
      ensures events == if d.roll < noteDensity then [MelodyNote(rootNote, sd, step, d)] else []
    {
      assert InUnit(0.0);
      var roll :| InUnit(roll);
      events, d := [], MelodyDraw(roll, 0, 0.0, 0, 0, 0);
      if roll < noteDensity {
        var interval := scaleIntervals[0];
        assert interval in scaleIntervals;
        interval :| interval in scaleIntervals;
        var jumpRoll :| InUnit(jumpRoll);
        var shift := 0;
        if jumpRoll < 0.2 {
          shift :| shift == -12 || shift == 0 || shift == 12;
        }
        var note := Clamp(rootNote + interval + shift);
        var velocity :| 70 <= velocity <= 100;
        var length :| 1 <= length <= 4;
        d := MelodyDraw(roll, interval, jumpRoll, shift, velocity, length);
        events := [NoteEvent(note, velocity, step as real * sd, sd * length as real)];
        assert events[0] == MelodyNote(rootNote, sd, step, d);
      }
    }
  }
}
