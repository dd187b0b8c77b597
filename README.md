# music-rapper core, modelled in Dafny

This project models the core of music-rapper, a tool that turns a short
instruction ("take loop.wav, pitch down 3 semitones, slice into 8" or
"create a memphis style beat with 808s at 170 bpm") into one of two things:
a list of audio operations run over a loaded sample, or a generated beat
made of drums and an 808 bassline.

The model covers four parts of the source:

- **Command parser** (`src/command_parser.py`). Modules `Commands`,
  `CommandFacts`, `ParserExamples`, `Scanners` and `Text`.
  - keyword classification of the lowercased, trimmed text;
  - the sample-command and generate-command field extractors;
  - each regular expression of the parser's pattern table, as a hand-written
    matcher `XAt(s, i)` ("does the pattern match starting at `i`?");
  - `Search`, the leftmost-match scan that `re.search` performs.
  - the phrases of the two docstring examples, each evaluated.
- **Pattern builder** (`src/pattern_builder.py`). Modules `Patterns`,
  `PatternFacts` and `PatternPlaces`.
  - the `PatternBuilder` class with its `bpm`, `stepsPerBar` and
    `stepDuration` fields;
  - the five drum styles, each as a step loop;
  - the three 808 bassline styles;
  - `combine_patterns`.
- **Music generator** (`src/music_generator.py`). Module `Music`.
  - the scale and genre tables;
  - key parsing;
  - the genre lookups;
  - the `MusicGenerator` class, whose `patternBuilder` field
    `generate_beat` replaces and `generate_melody` reuses.
- **Sample processor** (`src/sample_processor.py`). Module `Samples`.
  - slicing;
  - the filter dispatch;
  - the `process_command` fold over an operation list.

How the model is built:

- **Randomness.** Every call to `random.random`, `random.randint` or
  `random.choice` is a nondeterministic choice (`:|`) constrained to the
  range the source draws from. Each method logs its draws in ghost
  out-parameters (`DrumDraws`, `BassDraw`, `MelodyDraw`). Its result is then
  stated as a function of those draws (`Drums`, `Bassline`, `Melody`), and
  the lemmas prove their properties for every draw in range.
- **Times** are exact `real`s. The step duration is `60/bpm/(steps/4)`.
- **Signal processing** (pitch shift, time stretch and pre-emphasis)
  is a `Dsp` record of functions the model never looks into.
- **Loading and saving** are left to the caller. `ProcessCommand` takes the
  loaded sample as a parameter and returns the (path, sample) pair it would
  save.
- **Exceptions** the source raises from its own code are mostly `Failure`
  results:
  - `float()` on a token such as `.` or `1.2.3`;
  - `60 / 0` for a bpm of 0;
  - `total // 0` for zero slices.

  Two are excluded by preconditions instead. See
  `Patterns.PatternBuilder.Create808Bassline` and
  `Patterns.PatternBuilder.constructor` under "## Left out".

Behaviours of the code worth knowing:

- A stretch token that `float()` rejects is an error (`Failure(InvalidFloat)`)
  rather than an assumed decimal literal.
- The key of a generate command is always `C`. The key pattern matches only
  upper-case letters, and it is searched in text that has already been
  lowercased (`CommandFacts.KeyAlwaysC`).
- `sample` selects the sample branch, but the path pattern only knows
  `take|load|use|get`. So "sample x.wav" gives a sample command without a
  path.
- `get` is in the path pattern but not among the classification keywords.
  So "get x.wav" is an unknown command (`ParserExamples.GetIsUnknown`).
- `slice_sample` with a negative count returns no slices. Zero is the only
  error.
- An empty output path is falsy in Python, so nothing is saved for it.

## Model

| member | source | states |
|---|---|---|
| Patterns.DrumNotesAgree | src/pattern_builder.py:14-26 | the kick, snare and hi-hat pitches used throughout are the ones in the drum-note table, and the 808 note is 35 |
| Patterns.StepDurationMeaning | src/pattern_builder.py:38 | one bar of steps lasts four beats of `60/bpm` seconds, so 16 steps of `15/bpm` each |
| Patterns.PatternBuilder.constructor | src/pattern_builder.py:28-38 | the builder keeps the given bpm and steps per bar, and its step duration is the one `StepDurationMeaning` describes |
| Patterns.PatternBuilder.CreateDrumPattern | src/pattern_builder.py:40-66 | a style name (matched case-insensitively) chooses memphis, trap, lofi or boom bap, and anything else chooses basic; the result is that style's pattern over one logged draw per step of every bar, each draw in the source's ranges |
| Patterns.PatternBuilder.MemphisPattern | src/pattern_builder.py:68-105 | the memphis loop emits, step by step, exactly the memphis step rule applied to each step's draws |
| Patterns.PatternBuilder.MemphisStepEvents | src/pattern_builder.py:78-103 | one memphis step: the events of the step rule at that bar position, with the kick, snare and hi-hat velocities drawn from their ranges |
| Patterns.PatternBuilder.TrapPattern | src/pattern_builder.py:107-154 | the trap loop emits exactly the trap step rule for each step's draws |
| Patterns.PatternBuilder.TrapStepEvents | src/pattern_builder.py:117-152 | one trap step: kicks at 0, 6 and 10, a snare at 8, hi-hats on even steps, and a triplet roll at 7 or 15 when complexity exceeds 0.6 and the roll draw is under 0.7 |
| Patterns.PatternBuilder.TripletRoll | src/pattern_builder.py:144-152 | the roll is three hi-hats, each with a velocity of 80 to 100, a third of a step apart |
| Patterns.PatternBuilder.LofiPattern | src/pattern_builder.py:156-198 | the lofi loop emits exactly the lofi step rule, swing timing included, for each step's draws |
| Patterns.PatternBuilder.LofiStepEvents | src/pattern_builder.py:164-196 | one lofi step, with the swung time on odd steps |
| Patterns.PatternBuilder.BoomBapPattern | src/pattern_builder.py:200-236 | the boom-bap loop emits exactly the boom-bap step rule for each step's draws |
| Patterns.PatternBuilder.BoomBapStepEvents | src/pattern_builder.py:210-234 | one boom-bap step with velocities in the source's ranges |
| Patterns.PatternBuilder.BasicPattern | src/pattern_builder.py:238-274 | the basic loop, which draws nothing, gives the basic step rule at every step |
| Patterns.PatternBuilder.BasicStepEvents | src/pattern_builder.py:248-272 | one basic step with the fixed velocities 100, 100 and 80 |
| Patterns.BasicIgnoresComplexity | src/pattern_builder.py:57-66 | the basic pattern does not depend on complexity |
| Patterns.PatternBuilder.Create808Bassline | src/pattern_builder.py:276-336 | the pattern type (case-sensitive) chooses simple, bouncy or rolling, and any other type gives no notes; the notes are that style's bassline over the logged draws, one draw per note, each note's choice taken from the allowed part of the scale |
| Patterns.PatternBuilder.SimpleBassline | src/pattern_builder.py:298-308 | two root notes per bar, on steps 0 and 8 |
| Patterns.PatternBuilder.SimpleBassNote | src/pattern_builder.py:302-308 | one simple note: the root, with its velocity in the 100 to 120 draw range |
| Patterns.PatternBuilder.BouncyBassline | src/pattern_builder.py:310-323 | six notes per bar at the bouncy step positions, each from the first four scale degrees |
| Patterns.PatternBuilder.BouncyBassNote | src/pattern_builder.py:315-323 | one bouncy note: the root plus a draw from the first four scale degrees |
| Patterns.PatternBuilder.RollingBassline | src/pattern_builder.py:325-334 | one note on every even step, from the first three scale degrees |
| Patterns.PatternBuilder.RollingBassNote | src/pattern_builder.py:328-334 | one rolling note, half as long again as a step |
| Patterns.Take | src/pattern_builder.py:317 | `scale[:n]` is a prefix of the scale, of length `min(len, n)` |
| Patterns.PatternBuilder.CombinePatterns | src/pattern_builder.py:338-354 | the merge has the summed length, is a permutation of the patterns concatenated in argument order, is ordered by time, and at every time keeps the events in concatenation order (stability) |
| Patterns.InsertByTimeMultiset | src/pattern_builder.py:353 | inserting one event adds exactly that event |
| Patterns.InsertByTimeSorted | src/pattern_builder.py:353 | inserting into a time-ordered list keeps it time-ordered |
| Patterns.InsertByTimeAtTime | src/pattern_builder.py:353 | the inserted event goes after every earlier event with the same time |
| Patterns.SortByTimeSorted | src/pattern_builder.py:353 | the stable sort's output is ordered by time |
| Patterns.SortByTimePermutes | src/pattern_builder.py:353 | the stable sort's output is a permutation of its input |
| Patterns.SortByTimeStable | src/pattern_builder.py:353 | events with equal times keep their input order |
| Patterns.SortByTimeCorrect | src/pattern_builder.py:353 | sorted, a permutation and stable, together |
| PatternFacts.RollShape | src/pattern_builder.py:144-152 | roll hit i is a hi-hat at `time + i*sd/3`, lasting `sd/3`, with the i-th velocity |
| PatternFacts.RollTally | src/pattern_builder.py:144-152 | a roll adds one event per velocity, and no kick or snare |
| PatternFacts.TrapStepTally | src/pattern_builder.py:117-152 | the kicks, snares and events at one trap step, counted from its bar position, its complexity and its roll draw |
| PatternFacts.TrapStepCounts | src/pattern_builder.py:117-152 | per bar position: the trap kick and snare counts, and the event count between its plain and its rolled value |
| PatternFacts.TrapKicksPerBar | src/pattern_builder.py:116-123 | a trap pattern has exactly three kicks per bar |
| PatternFacts.TrapSnaresPerBar | src/pattern_builder.py:125-132 | a trap pattern has exactly one snare per bar |
| PatternFacts.TrapEventsLowerBound | src/pattern_builder.py:117-152 | a trap pattern has at least 12 events per bar |
| PatternFacts.TrapEventsUpperBound | src/pattern_builder.py:117-152 | a trap pattern has at most 18 events per bar (two triplet rolls) |
| PatternFacts.TrapPlainPerBar | src/pattern_builder.py:144-145 | with complexity at most 0.6, as in the trap template, there are exactly 12 events per bar |
| PatternFacts.MemphisStepCounts | src/pattern_builder.py:78-103 | per bar position, the memphis event count lies between its backbeat count and its full count, and reaches each at complexity 0 and 1 |
| PatternFacts.MemphisEventsLowerBound | src/pattern_builder.py:78-103 | a memphis pattern has at least 12 events per bar |
| PatternFacts.MemphisEventsUpperBound | src/pattern_builder.py:78-103 | a memphis pattern has at most 21 events per bar |
| PatternFacts.MemphisSparsePerBar | src/pattern_builder.py:78-103 | at complexity 0 there are exactly 12 memphis events per bar |
| PatternFacts.MemphisDensePerBar | src/pattern_builder.py:78-103 | at complexity 1 there are exactly 21 memphis events per bar |
| PatternFacts.FixedStepCounts | src/pattern_builder.py:164-272 | the lofi, boom-bap and basic event counts at a step depend only on its bar position |
| PatternFacts.LofiPerBar | src/pattern_builder.py:164-196 | a lofi pattern has exactly 12 events per bar |
| PatternFacts.BoomBapPerBar | src/pattern_builder.py:210-234 | a boom-bap pattern has exactly 8 events per bar |
| PatternFacts.BasicPerBar | src/pattern_builder.py:248-272 | a basic pattern has exactly 14 events per bar |
| PatternFacts.BasslineAt | src/pattern_builder.py:298-334 | bass note k is built from draw k alone |
| PatternFacts.BasslineShape | src/pattern_builder.py:298-334 | for every note, by style: simple notes are the root, last 3 steps and fall on steps 0 and 8 of a bar; bouncy notes are root plus one of `scale[:4]`, last 2 steps and fall on the bouncy positions; rolling notes are root plus one of `scale[:3]`, last 1.5 steps and fall on even steps inside the pattern; velocities lie in each style's range |
| PatternFacts.BasslineLength | src/pattern_builder.py:298-336 | 2 notes per bar for simple, 6 for bouncy, half the steps for rolling, and none for any other type |
| PatternPlaces.DrumsAreSteps | src/pattern_builder.py:40-66 | the whole drum pattern is the step results concatenated in step order |
| PatternPlaces.DrumsMembers | src/pattern_builder.py:40-66 | an event is in the pattern exactly when some step emits it |
| PatternPlaces.StepOf | src/pattern_builder.py:40-66 | every event of a pattern comes from a step of the grid |
| PatternPlaces.StepInDrums | src/pattern_builder.py:40-66 | whatever a step emits is in the pattern |
| PatternPlaces.RollMembers | src/pattern_builder.py:144-152 | every roll event is one of the three hi-hats a third of a step apart |
| PatternPlaces.OnGrid | src/pattern_builder.py:73-75 | outside lofi, every step's time is `step * sd` |
| PatternPlaces.TrapStepMembers | src/pattern_builder.py:117-152 | the events of a trap step, exactly: the kick at 0, 6 or 10, the snare at 8, the even-step hi-hat, and roll hits |
| PatternPlaces.TrapOrigin | src/pattern_builder.py:117-152 | every trap event is one of those four kinds at some grid step |
| PatternPlaces.TrapKicks | src/pattern_builder.py:116-123 | every trap kick falls at bar position 0, 6 or 10, with velocity 100 to 127 |
| PatternPlaces.TrapKickPlayed | src/pattern_builder.py:116-123 | every bar position 0, 6 and 10 has its kick |
| PatternPlaces.TrapSnares | src/pattern_builder.py:125-132 | every trap snare falls at bar position 8, with velocity 110 to 127 |
| PatternPlaces.TrapSnarePlayed | src/pattern_builder.py:125-132 | every bar position 8 has its snare |
| PatternPlaces.TrapOffbeat | src/pattern_builder.py:134-152 | an odd-step trap event is a roll hi-hat at step 7 or 15, which happens only above complexity 0.6, with velocity 80 to 100 |
| PatternPlaces.MemphisStepMembers | src/pattern_builder.py:78-103 | the events of a memphis step, exactly: the kick at 0 or 8, or at 12 when the draw is under complexity; snares at 4 and 12; the hi-hat on even steps or when its draw is under complexity |
| PatternPlaces.MemphisOrigin | src/pattern_builder.py:78-103 | every memphis event is one of those three kinds at some grid step |
| PatternPlaces.MemphisKicks | src/pattern_builder.py:77-84 | every memphis kick is one the kick rule allows |
| PatternPlaces.MemphisKickPlayed | src/pattern_builder.py:77-84 | the kick rule holds at a step if and only if the step plays its kick |
| PatternPlaces.MemphisSnares | src/pattern_builder.py:86-93 | every memphis snare falls at bar position 4 or 12 |
| PatternPlaces.MemphisSnarePlayed | src/pattern_builder.py:86-93 | every bar position 4 and 12 has its snare |
| PatternPlaces.MemphisHats | src/pattern_builder.py:95-103 | every memphis hi-hat falls on an even step or on an odd step whose draw was under complexity; odd hi-hats have velocity 60 to 90 and even ones 70 to 100 |
| PatternPlaces.MemphisHatPlayed | src/pattern_builder.py:95-103 | every even step, and every odd step under complexity, has its hi-hat |
| PatternPlaces.LofiStepMembers | src/pattern_builder.py:164-196 | the events of a lofi step, exactly: kicks at 0 and 8, snares at 4 and 12, hi-hats on even positions |
| PatternPlaces.LofiStepEven | src/pattern_builder.py:164-196 | a lofi step emits only on even bar positions, at the step's own time |
| PatternPlaces.LofiOnGrid | src/pattern_builder.py:164-196 | with an even number of steps per bar, every lofi event is on an even step at `step * sd`, so the swing for odd steps never moves an emitted event |
| PatternPlaces.BoomBapStepMembers | src/pattern_builder.py:210-234 | the events of a boom-bap step, exactly: kicks at 0 and 10, snares at 4 and 12, hi-hats at 0, 4, 8 and 12 |
| PatternPlaces.BoomBapPlaces | src/pattern_builder.py:210-234 | every boom-bap event is one of those at some grid step, and its kicks have velocity 110 to 127 |
| PatternPlaces.BasicStepMembers | src/pattern_builder.py:248-272 | the events of a basic step, exactly: kicks every 4th step, snares at 4 and 12, hi-hats on even steps, with fixed velocities |
| PatternPlaces.BasicPlaces | src/pattern_builder.py:248-272 | every basic event has a duration of one step, sits on its step's time, and is a velocity-100 kick every 4th step, a velocity-100 snare at 4 or 12, or a velocity-80 hi-hat on an even step |
| Text.Lower | src/command_parser.py:48 | lowercasing maps each character and leaves no upper-case letter |
| Text.StripStart | src/command_parser.py:48 | what `strip` removes at the front is whitespace, and the rest starts with a non-space |
| Text.StripEnd | src/command_parser.py:48 | what `strip` removes at the end is whitespace, and the rest ends with a non-space |
| Text.ReplaceChar | src/command_parser.py:141 | `replace(' ', '_')` swaps exactly the spaces and keeps the length |
| Text.DecimalValue | src/command_parser.py:90 | `float()` of a matched `[0-9.]+` token, when it succeeds, is not negative |
| Text.DecimalValueAccepts | src/command_parser.py:90 | `float()` accepts such a token if and only if it has a digit and at most one dot |
| Scanners.SampleAt | src/command_parser.py:18 | a path match starts with take, load, use or get and white space; its group has at least one character, holds no line break and ends in `.wav`, `.mp3`, `.flac` or `.aiff` |
| Scanners.SampleAtReaches | src/command_parser.py:18 | a keyword, white space, then a run without line breaks up to an audio extension make the path pattern match |
| Scanners.SampleWordLength | src/command_parser.py:18 | the keyword is 4 characters long if and only if `take` or `load` starts there, 3 if and only if `use` or `get` does |
| Scanners.ExtensionLength | src/command_parser.py:18 | an extension is there if and only if a dot and one of `wav`, `mp3`, `flac`, `aiff` start there; it holds no line break |
| Scanners.TailAt | src/command_parser.py:18 | after a lazy group, the extension tail matches if and only if an extension starts there, and the group then ends after it |
| Scanners.LazyEnd | src/command_parser.py:18 | a lazy group ends only after a run without line breaks, and for a path right after an audio extension |
| Scanners.LazyEndReaches | src/command_parser.py:18 | a run without line breaks up to a place where the tail matches lets the lazy group end |
| Scanners.LazyDownReaches | src/command_parser.py:18 | when the path can start at some point of the white space, the search that gives the white space back finds a path |
| Scanners.PathText | src/command_parser.py:18 | the text of a path group is a file name with an audio extension and no line break |
| Scanners.PitchAt | src/command_parser.py:19 | a pitch match captures an optionally signed numeral |
| Scanners.StretchAt | src/command_parser.py:20 | a stretch match captures a `[0-9.]+` token |
| Scanners.FilterNameLength | src/command_parser.py:21 | a filter name is there if and only if `lowpass`, `highpass` or `bandpass` starts at that point |
| Scanners.FilterAt | src/command_parser.py:21 | a filter match captures a filter name and a numeral |
| Scanners.SliceAt | src/command_parser.py:22 | a slice match captures a numeral |
| Scanners.InsertAt | src/command_parser.py:23 | an insert match captures a bar numeral and maybe a beat numeral |
| Scanners.MeasureAt | src/command_parser.py:24 | a measure match captures a numeral |
| Scanners.BeatAt | src/command_parser.py:25 | a beat/count match captures a numeral |
| Scanners.CreateAt | src/command_parser.py:26 | a "create a X beat" match captures the description span |
| Scanners.GenreAt | src/command_parser.py:27 | a genre match captures a non-empty genre word starting where the match starts |
| Scanners.With808At | src/command_parser.py:28 | a 808 match is a span of the text |
| Scanners.BpmAt | src/command_parser.py:29 | a bpm match captures a numeral |
| Scanners.KeyAt | src/command_parser.py:30 | a key match starts with an upper-case letter from A to G |
| Scanners.BarsAt | src/command_parser.py:31 | a bars match captures a numeral |
| Scanners.Search | src/command_parser.py:73 | `re.search` gives a position inside the text where the pattern matches |
| Scanners.SearchLeftmost | src/command_parser.py:73 | the position `re.search` gives is the leftmost one, and a failed search means no position matches |
| Scanners.With808Found | src/command_parser.py:174 | the 808 pattern is found if and only if the text has `with`, whitespace, then `808` |
| Scanners.BpmFoundText | src/command_parser.py:159 | a bpm match means the text has digits, optional whitespace, then `bpm` |
| Scanners.BpmTextFound | src/command_parser.py:159 | digits, optional whitespace, then `bpm` anywhere in the text give a bpm match |
| Scanners.KeyNeedsUppercase | src/command_parser.py:30 | the key pattern never matches a text without upper-case letters |
| Scanners.GenreWordFound | src/command_parser.py:27 | a text holding a genre word has a genre match |
| CommandFacts.SamplePathShape | src/command_parser.py:69-71 | a `sample_path` that is found ends in an audio extension after at least one character, holds no line break, and its match starts with take, load, use or get and white space |
| CommandFacts.SamplePathFound | src/command_parser.py:69-71 | a keyword, white space, then a run without line breaks up to an audio extension give a `sample_path` |
| ParserExamples.SamplePathExample | src/command_parser.py:45 | `take sample.wav` gives the path `sample.wav` |
| ParserExamples.PitchExample | src/command_parser.py:45 | `pitch down 3 semitones` gives a pitch shift of -3 |
| ParserExamples.StretchExample | src/command_parser.py:45 | `stretch by .82` gives a time stretch of 0.82 |
| ParserExamples.InsertExample | src/command_parser.py:45 | `insert at bar 40 beat 3` gives bar 40, beat 3 |
| ParserExamples.With808Example | src/command_parser.py:46 | `with 808s` sets `include_808` |
| ParserExamples.BpmExample | src/command_parser.py:46 | `at 170 bpm` gives bpm 170 |
| ParserExamples.GetIsUnknown | src/command_parser.py:51-56 | `get x.wav` holds none of the classification keywords and is an unknown command |
| Commands.Parse | src/command_parser.py:34-56 | after lowercasing and trimming: any of take/load/use/sample gives a sample command; otherwise any of create/make/generate gives a generate command; otherwise `unknown` carrying the normalised text; each case holds if and only if its condition does |
| Commands.PitchSign | src/command_parser.py:74-83 | the semitones are the captured value or its negation, and are negative if and only if the value is negative or `pitch down` occurs with a positive value |
| Commands.SampleCommand | src/command_parser.py:58-125 | a sample command, or the `float()` error of the stretch token |
| Commands.ParseSampleCommand | src/command_parser.py:58-125 | filling the result dict field by field computes exactly the sample-command specification: path, operations and insert position |
| Commands.AppendOperations | src/command_parser.py:73-108 | the four extractors, appended in turn, give the operation specification or the stretch error |
| Commands.AppendPitch | src/command_parser.py:74-83 | appends the pitch operation when its pattern matches and nothing otherwise |
| Commands.AppendStretch | src/command_parser.py:86-91 | appends the stretch operation, or fails when `float()` rejects the token |
| Commands.AppendFilter | src/command_parser.py:94-100 | appends the filter operation when its pattern matches |
| Commands.AppendSlice | src/command_parser.py:103-108 | appends the slice operation when its pattern matches |
| Commands.InsertPosition | src/command_parser.py:111-123 | the bar and beat the two position patterns give, in the source's order |
| Commands.FallbackGenreFrom | src/command_parser.py:149-152 | the first of memphis, trap, lofi and drill in the description, or none when it holds none of them |
| Commands.FallbackGenre | src/command_parser.py:149-152 | the `for … break` loop finds that first genre |
| Commands.ParseGenerateCommand | src/command_parser.py:127-177 | filling the result dict field by field computes exactly the generate-command specification |
| CommandFacts.OperationsInFixedOrder | src/command_parser.py:73-108 | at most four operations, in the fixed order pitch, stretch, filter, slice, at most one of each kind |
| CommandFacts.OperationKinds | src/command_parser.py:73-108 | each kind of operation is present if and only if its pattern matches the text, and no other kind ever is |
| CommandFacts.InsertPositionRules | src/command_parser.py:111-123 | there is no bar only when neither position pattern matches; the insert match decides unless it has no bar or bar 0; only the fallback reads the beat pattern; and the beat is 1 unless one of the patterns gives it |
| CommandFacts.DescriptionGenreInText | src/command_parser.py:144-152 | a genre word inside the captured description is a genre word of the whole text |
| CommandFacts.GenreRule | src/command_parser.py:139-156 | the genre is the first vocabulary match with spaces turned into `_`, and `trap` otherwise; the "create a X beat" fallback never finds anything more |
| CommandFacts.NormalisedLowercase | src/command_parser.py:48 | the normalised text has no upper-case letters |
| CommandFacts.KeyAlwaysC | src/command_parser.py:164-166 | every generate command that `parse` produces has key `C` |
| CommandFacts.Include808Rule | src/command_parser.py:174-175 | `include_808` holds if and only if `with 808` appears |
| CommandFacts.BpmRule | src/command_parser.py:159-161 | the bpm is None if and only if no digits-then-`bpm` appears |
| Music.TableKeys | src/music_generator.py:15-62 | the scale and genre tables have exactly the listed keys, without repeats |
| Music.ScalesWellFormed | src/music_generator.py:15-24 | every scale has at least five degrees, starts at 0 and rises strictly within 0..11 |
| Music.TemplatesWellFormed | src/music_generator.py:26-62 | every template has tempos with 70 <= min <= max <= 180, a complexity in [0, 1], a scale that is a key of the scale table, and a bass pattern of simple, bouncy or rolling, so the lookup at line 118 never fails |
| Music.NoteNamesSpelled | src/music_generator.py:153-161 | every name in the note table is its letter's pitch above middle C, sharps one up and flats one down |
| Music.ParseKeyScale | src/music_generator.py:164-174 | the scale is minor if and only if the stripped key ends in `m`; without the `m`, a minor default turns major and any other default passes through |
| Music.NoteNumberRange | src/music_generator.py:177 | a note name maps into 60..71, and an unknown name to 60 |
| Music.ParseKeyRoot | src/music_generator.py:164-177 | the root always lies in 60..71 and is 60 when the root letters are not a known note |
| Music.ParseKeyMinorExample | src/music_generator.py:146 | `Dm` with a minor default gives (62, minor) |
| Music.ParseKeySpacedExample | src/music_generator.py:146 | ` F#m ` with a major default gives (66, minor) |
| Music.ParseKeyMajorExample | src/music_generator.py:82 | `F#` with a minor default gives (66, major) |
| Music.ParseKeyPlainExample | src/music_generator.py:82 | `C` with a minor default gives (60, major) |
| Music.GenreInfo | src/music_generator.py:238-240 | there is genre info if and only if the lowercased name is a listed genre |
| Music.ListGenres | src/music_generator.py:242-244 | lists exactly the keys of the genre table |
| Music.ListScales | src/music_generator.py:246-248 | lists exactly the keys of the scale table |
| Music.UnknownGenreIsTrap | src/music_generator.py:90-95 | an unknown genre uses the trap template, and a known one its own |
| Music.BeatScaleKnown | src/music_generator.py:102-118 | the scale chosen by key parsing is always in the scale table |
| Music.FlattenPair | src/music_generator.py:127 | merging drums and bass merges their concatenation |
| Music.BeatTempo | src/music_generator.py:98-99 | without a caller bpm, the tempo lies between 70 and 180 |
| Music.MusicGenerator.constructor | src/music_generator.py:64-66 | a new generator has no pattern builder |
| Music.MusicGenerator.GenerateBeat | src/music_generator.py:68-139 | fails exactly for bpm 0; otherwise it returns the caller's genre, key and bars with the root and scale of key parsing; the caller's bpm or one from the template's range; the template's drums at its complexity; the 808 line an octave under the root, or none; and the two merged and stably sorted; it also leaves a new 16-step builder at that bpm |
| Music.Clamp | src/music_generator.py:227 | the note is pushed into 0..127 and left alone when it is already there |
| Music.MelodyScale | src/music_generator.py:205 | an unknown scale falls back to the minor pentatonic, so the intervals are never empty |
| Music.SoundingStepsExact | src/music_generator.py:213-234 | the steps that sound are exactly those whose draw is under the density, in increasing order |
| Music.MelodyShape | src/music_generator.py:213-234 | at most one note per step: note i is that step's note at `step * sd` |
| Music.MelodyRanges | src/music_generator.py:213-234 | every melody note has a pitch in 0..127, a velocity of 70 to 100 and a length of one to four steps |
| Music.MusicGenerator.GenerateMelody | src/music_generator.py:181-236 | reuses the builder the last beat left, or makes a 120-bpm one when there is none; one draw per step, each in range; the melody over those draws |
| Music.MusicGenerator.MelodyStep | src/music_generator.py:215-234 | one step: a note exactly when the roll is under the density |
| Samples.MapChannels | src/sample_processor.py:48-54 | a mono sample stays mono and a stereo one stereo |
| Samples.ApplyFilter | src/sample_processor.py:131-167 | any type other than lowpass or highpass, bandpass included, returns the audio unchanged; the two filters keep the channel layout |
| Samples.PySlice | src/sample_processor.py:103-105 | Python slicing agrees with the sequence slice when the end is in range |
| Samples.SliceLayout | src/sample_processor.py:94-105 | slice i runs from `i*(total//n)`; every slice before the last has length `total//n` and ends where the next begins; the last ends at `total` and is at least as long |
| Samples.SliceParts | src/sample_processor.py:79-109 | fails exactly when `num_slices` is 0, and otherwise gives `num_slices` slices (none for a negative count) |
| Samples.FirstSlicesAt | src/sample_processor.py:97-107 | the i-th slice built is the i-th piece of the layout |
| Samples.JoinedPrefix | src/sample_processor.py:98-107 | the first k slices joined are the channel up to the end of slice k |
| Samples.SlicesJoinBack | src/sample_processor.py:98-107 | the slices joined back together reproduce every channel of the input |
| Samples.SliceLengths | src/sample_processor.py:94-105 | every slice is at least `total//n` long, and all but the last exactly that |
| Samples.SampleProcessor.constructor | src/sample_processor.py:17-18 | the processor keeps the given sample rate |
| Samples.SampleProcessor.SliceSample | src/sample_processor.py:79-109 | the slicing loop computes exactly the slice layout, or the zero-slices error |
| Samples.RunAppend | src/sample_processor.py:202-213 | running two lists one after the other is running the second on the first's result, unless the first ended in slices or an error |
| Samples.RunWithoutSlice | src/sample_processor.py:202-210 | without a slice, every operation is applied in list order and the whole sample comes back |
| Samples.SliceEndsRun | src/sample_processor.py:211-213 | the first slice returns the slices of the sample processed so far, and later operations are skipped |
| Samples.UnrecognisedSkipped | src/sample_processor.py:203-213 | an operation of unknown type changes nothing |
| Samples.SampleProcessor.ProcessCommand | src/sample_processor.py:181-218 | the loop over the operations computes the run; it saves to the output path exactly when a non-empty path is given and no slice ended the run, and what it saves is the processed sample |

## Left out

- `src/fl_controller.py` and `main.py` are not part of this model. They hold
  MIDI ports, subprocesses, file copies, YAML configuration, sleeps,
  argument parsing and the interactive loop.
- `CommandParser.validate_sample_path` probes the file system and
  `format_help` is static text; neither is modelled.
- `load_sample`, `save_sample` and `detect_bpm` are I/O or signal analysis.
  `ProcessCommand` takes the loaded sample as a parameter instead of a file
  path, and returns the pair it would save.
- The signal processing in `pitch_shift`, `time_stretch` and the
  pre-emphasis filters is foreign floating-point code. It is an
  uninterpreted `Dsp` value: so is the library's own error for a stretch
  rate of 0 or less, and its per-row handling of arrays with more than two
  rows (`Audio` is mono or two-channel).
- The `sr` argument of `pitch_shift`, `slice_sample` and `apply_filter`
  is left out wherever it is unused or defaults to the processor's rate.
- Random distributions. Only the range of each draw is modelled, never its
  probability. The draws are logged in ghost out-parameters, so the
  methods' results are stated in terms of values the caller cannot see.
- IEEE floating point. Times, rates and complexities are exact `real`s, and
  `float()` is exact decimal conversion.
- Unicode. Lowercasing, uppercasing and whitespace are ASCII only.
- Printing: the warning `generate_beat` prints for an unknown genre.
- `combine_patterns` calls Python's stable `list.sort`. It is modelled by a
  functional stable insertion sort (`SortByTime`); a stable sort by one key
  has only one possible output, so the two agree.
- The parser's two docstring examples are proved phrase by phrase (module
  `ParserExamples`), each phrase on its own through the extractor that
  reads it, not as `Parse` on the whole sentence. The leftmost search over
  the full sentences runs every pattern at every position, which is too
  expensive to evaluate. The genre phrase `memphis` is not evaluated; it is
  covered by `CommandFacts.GenreRule` and `Scanners.GenreWordFound`.
- Patterns.PatternBuilder.Create808Bassline: requires a non-empty scale for
  the `bouncy` and `rolling` styles when they play any note. This excludes
  the `IndexError` that `random.choice([])` raises
  (src/pattern_builder.py:317, 328). Every scale of the generator's table
  is non-empty.
- Patterns.PatternBuilder.constructor: requires `stepsPerBar > 0`. Python
  raises `ZeroDivisionError` for 0 steps (src/pattern_builder.py:38) and
  accepts a negative count, which gives a negative step duration.
- Music.BeatTempo: bounds the drawn tempo by the table's overall 70..180;
  `GenerateBeat` itself states the template's own range.
- Text.DecimalValue: states only that a successful value is not negative.
  Its exact value is given by the definition and is not restated.
