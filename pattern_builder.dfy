/**
 * Drum patterns, 808 basslines and pattern merging (`PatternBuilder`).
 *
 * A generator walks the step grid bar by bar and appends note events
 * according to the rules of its style.  Every random draw a generator makes
 * (`random.random()`, `random.randint`, `random.choice`) is an arbitrary value
 * in its range; the method logs the draws of each step in a ghost record so
 * that its result can be stated as a function of the grid and of those draws.
 */
module Patterns {
  import opened Text

  /** One note event: a dictionary with keys note, velocity, time and duration. */
  datatype NoteEvent = NoteEvent(note: int, velocity: int, time: real, duration: real)

  /** General MIDI drum numbers, `DRUM_NOTES`. */
  const DrumNotes: map<string, int> := map[
    "kick" := 36, "snare" := 38, "clap" := 39, "hihat" := 42, "hihat_open" := 46,
    "crash" := 49, "ride" := 51, "tom_low" := 45, "tom_mid" := 47, "tom_high" := 50,
    "808" := 35]

  /** The three drums the generators play. */
  const Kick: int := 36
  const Snare: int := 38
  const HiHat: int := 42

  lemma DrumNotesAgree()
    ensures DrumNotes["kick"] == Kick && DrumNotes["snare"] == Snare && DrumNotes["hihat"] == HiHat
    ensures "808" in DrumNotes && DrumNotes["808"] == 35
  {
  }

  /** Seconds per step: one beat lasts 60/bpm seconds and a quarter of a bar's steps make a beat. */
  function StepDuration(bpm: int, stepsPerBar: int): real
    requires bpm != 0 && stepsPerBar != 0
  {
    60.0 / bpm as real / (stepsPerBar as real / 4.0)
  }

  /** A bar of steps lasts four beats; with 16 steps a step is a sixteenth note, `15/bpm` seconds. */
  lemma StepDurationMeaning(bpm: int, stepsPerBar: int)
    requires bpm != 0 && stepsPerBar != 0
    ensures StepDuration(bpm, stepsPerBar) * (stepsPerBar as real) == 4.0 * (60.0 / bpm as real)
    ensures stepsPerBar == 16 ==> StepDuration(bpm, stepsPerBar) == 15.0 / bpm as real
  {
  }

  /** `range(total_steps)` runs this many times. */
  function TotalSteps(stepsPerBar: int, bars: int): nat {
    if stepsPerBar * bars > 0 then stepsPerBar * bars else 0
  }

  // ---------------------------------------------------------------------
  // Drum styles and the per-step rules
  // ---------------------------------------------------------------------

  datatype DrumStyle = Memphis | Trap | Lofi | BoomBap | Basic

  /** `create_drum_pattern` dispatches on the lower-cased style name; anything else is basic. */
  function StyleOf(style: string): DrumStyle {
    var s := Lower(style);
    if s == "memphis" then Memphis
    else if s == "trap" then Trap
    else if s == "lofi" then Lofi
    else if s == "boom_bap" then BoomBap
    else Basic
  }

  /**
   * The draws one step of a drum generator makes.  A roll is a
   * `random.random()` value, a velocity a `random.randint` value; a step that
   * does not make a draw records a default in range.
   */
  datatype DrumDraws = DrumDraws(
    kickRoll: real, kickVelocity: int, snareVelocity: int,
    hatRoll: real, hatVelocity: int, rollRoll: real, rollVelocities: seq<int>)

  /** A `random.random()` result. */
  predicate InUnit(r: real) {
    0.0 <= r < 1.0
  }

  /** The ranges the source draws from, for a step at bar position `pos`. */
  predicate DrawsOk(style: DrumStyle, pos: int, d: DrumDraws) {
    match style
    case Memphis =>
      InUnit(d.kickRoll) && 90 <= d.kickVelocity <= 110 && 100 <= d.snareVelocity <= 120 &&
      InUnit(d.hatRoll) &&
      (if pos % 2 == 1 then 60 <= d.hatVelocity <= 90 else 70 <= d.hatVelocity <= 100)
    case Trap =>
      100 <= d.kickVelocity <= 127 && 110 <= d.snareVelocity <= 127 && 60 <= d.hatVelocity <= 80 &&
      InUnit(d.rollRoll) && |d.rollVelocities| == 3 &&
      forall i :: 0 <= i < 3 ==> 80 <= d.rollVelocities[i] <= 100
    case Lofi =>
      70 <= d.kickVelocity <= 90 && 60 <= d.snareVelocity <= 80 && 40 <= d.hatVelocity <= 60
    case BoomBap =>
      110 <= d.kickVelocity <= 127 && 100 <= d.snareVelocity <= 120 && 50 <= d.hatVelocity <= 70
    case Basic => true
  }

  predicate AllDrawsOk(style: DrumStyle, stepsPerBar: int, draws: seq<DrumDraws>)
    requires stepsPerBar > 0
  {
    forall s :: 0 <= s < |draws| ==> DrawsOk(style, s % stepsPerBar, draws[s])
  }

  /** Memphis: kicks on 0 and 8 (and 12 by draw), snares on 4 and 12, hi-hats on even steps (odd ones by draw). */
  function MemphisStep(pos: int, time: real, sd: real, complexity: real, d: DrumDraws): seq<NoteEvent> {
    (if pos == 0 || pos == 8 || (pos == 12 && d.kickRoll < complexity)
     then [NoteEvent(Kick, d.kickVelocity, time, sd * 2.0)] else []) +
    (if pos == 4 || pos == 12 then [NoteEvent(Snare, d.snareVelocity, time, sd)] else []) +
    (if pos % 2 == 0 || d.hatRoll < complexity
     then [NoteEvent(HiHat, d.hatVelocity, time, sd * 0.8)] else [])
  }

  /** The three hi-hats of a triplet roll, a third of a step apart. */
  function Roll(time: real, sd: real, velocities: seq<int>): (r: seq<NoteEvent>)
    ensures |r| == |velocities|
  {
    if velocities == [] then []
    else
      var i := |velocities| - 1;
      Roll(time, sd, velocities[..i]) + [NoteEvent(HiHat, velocities[i], time + i as real * sd / 3.0, sd / 3.0)]
  }

  /** Trap: kicks on 0, 6 and 10, a snare on 8, hi-hats on even steps, and a roll on 7 or 15 by draw. */
  function TrapStep(pos: int, time: real, sd: real, complexity: real, d: DrumDraws): seq<NoteEvent> {
    (if pos == 0 || pos == 6 || pos == 10 then [NoteEvent(Kick, d.kickVelocity, time, sd * 3.0)] else []) +
    (if pos == 8 then [NoteEvent(Snare, d.snareVelocity, time, sd * 2.0)] else []) +
    (if pos % 2 == 0 then [NoteEvent(HiHat, d.hatVelocity, time, sd * 0.7)] else []) +
    (if complexity > 0.6 && (pos == 7 || pos == 15) && d.rollRoll < 0.7
     then Roll(time, sd, d.rollVelocities) else [])
  }

  /** Lo-fi: kicks on 0 and 8, snares on 4 and 12, hi-hats on even steps. */
  function LofiStep(pos: int, time: real, sd: real, d: DrumDraws): seq<NoteEvent> {
    (if pos == 0 || pos == 8 then [NoteEvent(Kick, d.kickVelocity, time, sd * 2.0)] else []) +
    (if pos == 4 || pos == 12 then [NoteEvent(Snare, d.snareVelocity, time, sd)] else []) +
    (if pos % 2 == 0 then [NoteEvent(HiHat, d.hatVelocity, time, sd)] else [])
  }

  /** Boom-bap: kicks on 0 and 10, snares on 4 and 12, hi-hats on every fourth step. */
  function BoomBapStep(pos: int, time: real, sd: real, d: DrumDraws): seq<NoteEvent> {
    (if pos == 0 || pos == 10 then [NoteEvent(Kick, d.kickVelocity, time, sd * 2.0)] else []) +
    (if pos == 4 || pos == 12 then [NoteEvent(Snare, d.snareVelocity, time, sd)] else []) +
    (if pos % 4 == 0 then [NoteEvent(HiHat, d.hatVelocity, time, sd)] else [])
  }

  /** Basic four-on-the-floor, with fixed velocities. */
  function BasicStep(pos: int, time: real, sd: real): seq<NoteEvent> {
    (if pos % 4 == 0 then [NoteEvent(Kick, 100, time, sd)] else []) +
    (if pos == 4 || pos == 12 then [NoteEvent(Snare, 100, time, sd)] else []) +
    (if pos % 2 == 0 then [NoteEvent(HiHat, 80, time, sd)] else [])
  }

  /** The swing factor of the lo-fi pattern. */
  const Swing: real := 0.7

  /** The onset of a step: lo-fi delays odd steps by the swing, every other style plays on the grid. */
  function StepTime(style: DrumStyle, step: int, sd: real): real {
    if style == Lofi && step % 2 == 1 then (step - 1) as real * sd + sd * Swing
    else step as real * sd
  }

  /** The events one step of a style appends. */
  function DrumStep(style: DrumStyle, stepsPerBar: int, sd: real, complexity: real, step: int, d: DrumDraws): seq<NoteEvent>
    requires stepsPerBar > 0
  {
    var pos := step % stepsPerBar;
    var time := StepTime(style, step, sd);
    match style
    case Memphis => MemphisStep(pos, time, sd, complexity, d)
    case Trap => TrapStep(pos, time, sd, complexity, d)
    case Lofi => LofiStep(pos, time, sd, d)
    case BoomBap => BoomBapStep(pos, time, sd, d)
    case Basic => BasicStep(pos, time, sd)
  }

  /** The pattern a style produces over `|draws|` steps, given the draws of every step. */
  function Drums(style: DrumStyle, stepsPerBar: int, sd: real, complexity: real, draws: seq<DrumDraws>): seq<NoteEvent>
    requires stepsPerBar > 0
  {
    if draws == [] then []
    else
      var n := |draws| - 1;
      Drums(style, stepsPerBar, sd, complexity, draws[..n]) + DrumStep(style, stepsPerBar, sd, complexity, n, draws[n])
  }

  lemma DrumsSnoc(style: DrumStyle, stepsPerBar: int, sd: real, complexity: real, draws: seq<DrumDraws>, d: DrumDraws)
    requires stepsPerBar > 0
    ensures Drums(style, stepsPerBar, sd, complexity, draws + [d]) ==
            Drums(style, stepsPerBar, sd, complexity, draws) + DrumStep(style, stepsPerBar, sd, complexity, |draws|, d)
  {
    assert (draws + [d])[..|draws|] == draws;
  }

  /** The basic pattern has no optional hits, so the complexity does not matter to it. */
  lemma {:induction false} BasicIgnoresComplexity(stepsPerBar: int, sd: real, c1: real, c2: real, draws: seq<DrumDraws>)
    requires stepsPerBar > 0
    ensures Drums(Basic, stepsPerBar, sd, c1, draws) == Drums(Basic, stepsPerBar, sd, c2, draws)
  {
    if draws != [] {
      BasicIgnoresComplexity(stepsPerBar, sd, c1, c2, draws[..|draws| - 1]);
    }
  }

  /** The basic pattern draws nothing: its steps carry this placeholder. */
  const NoDraw: DrumDraws := DrumDraws(0.0, 0, 0, 0.0, 0, 0.0, [])

  function NoDraws(n: nat): (r: seq<DrumDraws>)
    ensures |r| == n && forall i :: 0 <= i < n ==> r[i] == NoDraw
  {
    seq(n, _ => NoDraw)
  }

  // ---------------------------------------------------------------------
  // 808 basslines
  // ---------------------------------------------------------------------

  /** `pattern_type` is compared case-sensitively; an unknown type produces no notes. */
  datatype BassStyle = Simple | Bouncy | Rolling | NoBass

  function BassStyleOf(patternType: string): BassStyle {
    if patternType == "simple" then Simple
    else if patternType == "bouncy" then Bouncy
    else if patternType == "rolling" then Rolling
    else NoBass
  }

  /** The bar positions of the bouncy pattern. */
  const BouncySteps: seq<int> := [0, 3, 6, 8, 11, 14]

  /** The draws for one bass note: the interval `random.choice` picked and the velocity. */
  datatype BassDraw = BassDraw(interval: int, velocity: int)

  /** How many notes a bassline has. */
  function BassCount(style: BassStyle, stepsPerBar: int, bars: int): nat {
    var b := if bars > 0 then bars else 0;
    match style
    case Simple => 2 * b
    case Bouncy => 6 * b
    case Rolling => (TotalSteps(stepsPerBar, bars) + 1) / 2
    case NoBass => 0
  }

  /** `scale[:n]`: the first `n` entries, or all of them when there are fewer. */
  function Take(scale: seq<int>, n: nat): (r: seq<int>)
    ensures |r| == (if |scale| <= n then |scale| else n) && r <= scale
  {
    if |scale| <= n then scale else scale[..n]
  }

  /** The ranges of a bass note's draws. */
  predicate BassDrawOk(style: BassStyle, scale: seq<int>, d: BassDraw) {
    match style
    case Simple => 100 <= d.velocity <= 120
    case Bouncy => d.interval in Take(scale, 4) && 90 <= d.velocity <= 110
    case Rolling => d.interval in Take(scale, 3) && 80 <= d.velocity <= 100
    case NoBass => true
  }

  /** The `k`-th note of a bassline. */
  function BassNote(style: BassStyle, root: int, stepsPerBar: int, sd: real, k: int, d: BassDraw): NoteEvent {
    match style
    case Simple =>
      NoteEvent(root, d.velocity, ((k / 2) * stepsPerBar + (if k % 2 == 0 then 0 else 8)) as real * sd, sd * 3.0)
    case Bouncy =>
      NoteEvent(root + d.interval, d.velocity, ((k / 6) * stepsPerBar + BouncySteps[k % 6]) as real * sd, sd * 2.0)
    case _ =>
      NoteEvent(root + d.interval, d.velocity, (2 * k) as real * sd, sd * 1.5)
  }

  function Bassline(style: BassStyle, root: int, stepsPerBar: int, sd: real, draws: seq<BassDraw>): (r: seq<NoteEvent>)
    ensures |r| == |draws|
  {
    if draws == [] then []
    else
      var n := |draws| - 1;
      Bassline(style, root, stepsPerBar, sd, draws[..n]) + [BassNote(style, root, stepsPerBar, sd, n, draws[n])]
  }

  lemma BasslineSnoc(style: BassStyle, root: int, stepsPerBar: int, sd: real, draws: seq<BassDraw>, d: BassDraw)
    ensures Bassline(style, root, stepsPerBar, sd, draws + [d]) ==
            Bassline(style, root, stepsPerBar, sd, draws) + [BassNote(style, root, stepsPerBar, sd, |draws|, d)]
  {
    assert (draws + [d])[..|draws|] == draws;
  }

  // ---------------------------------------------------------------------
  // Merging: concatenate, then the stable sort by time of `list.sort`
  // ---------------------------------------------------------------------

  function Flatten(patterns: seq<seq<NoteEvent>>): (r: seq<NoteEvent>)
  {
    if patterns == [] then [] else Flatten(patterns[..|patterns| - 1]) + patterns[|patterns| - 1]
  }

  function TotalLength(patterns: seq<seq<NoteEvent>>): nat {
    if patterns == [] then 0 else TotalLength(patterns[..|patterns| - 1]) + |patterns[|patterns| - 1]|
  }

  predicate SortedByTime(s: seq<NoteEvent>) {
    forall i, j :: 0 <= i < j < |s| ==> s[i].time <= s[j].time
  }

  /** The events of `s` whose time is `t`, in their order in `s`. */
  function AtTime(s: seq<NoteEvent>, t: real): seq<NoteEvent> {
    if s == [] then []
    else AtTime(s[..|s| - 1], t) + (if s[|s| - 1].time == t then [s[|s| - 1]] else [])
  }

  /** Places `e` after every event at the end of `s` that is not later than it. */
  function InsertByTime(s: seq<NoteEvent>, e: NoteEvent): seq<NoteEvent> {
    if s == [] || s[|s| - 1].time <= e.time then s + [e]
    else InsertByTime(s[..|s| - 1], e) + [s[|s| - 1]]
  }

  /** Insertion sort by time: the stable sort `list.sort(key=time)` performs. */
  function SortByTime(s: seq<NoteEvent>): seq<NoteEvent> {
    if s == [] then [] else InsertByTime(SortByTime(s[..|s| - 1]), s[|s| - 1])
  }

  lemma {:induction false} InsertByTimeMultiset(s: seq<NoteEvent>, e: NoteEvent)
    ensures multiset(InsertByTime(s, e)) == multiset(s) + multiset{e}
  {
    if s != [] && s[|s| - 1].time > e.time {
      var n := |s| - 1;
      InsertByTimeMultiset(s[..n], e);
      assert s == s[..n] + [s[n]];
    }
  }

  lemma {:induction false} InsertByTimeSorted(s: seq<NoteEvent>, e: NoteEvent)
    requires SortedByTime(s)
    ensures SortedByTime(InsertByTime(s, e))
  {
    if s == [] {
      assert InsertByTime(s, e) == [e];
    } else if s[|s| - 1].time <= e.time {
      SortedNoLaterThanLast(s);
      SortedSnoc(s, e);
    } else {
      var n := |s| - 1;
      var r := InsertByTime(s[..n], e);
      assert SortedByTime(s[..n]);
      InsertByTimeSorted(s[..n], e);
      assert NoLaterThan(s[..n], s[n].time);
      InsertByTimeBound(s[..n], e, s[n].time);
      SortedSnoc(r, s[n]);
    }
  }

  /** No event of `s` is later than `t`. */
  predicate NoLaterThan(s: seq<NoteEvent>, t: real) {
    forall i :: 0 <= i < |s| ==> s[i].time <= t
  }

  lemma SortedNoLaterThanLast(s: seq<NoteEvent>)
    requires SortedByTime(s) && s != []
    ensures NoLaterThan(s, s[|s| - 1].time)
  {
  }

  lemma SortedSnoc(s: seq<NoteEvent>, e: NoteEvent)
    requires SortedByTime(s) && NoLaterThan(s, e.time)
    ensures SortedByTime(s + [e])
  {
    assert forall i :: 0 <= i < |s| ==> (s + [e])[i] == s[i];
  }

  lemma {:induction false} InsertByTimeBound(s: seq<NoteEvent>, e: NoteEvent, t: real)
    requires NoLaterThan(s, t) && e.time <= t
    ensures NoLaterThan(InsertByTime(s, e), t)
  {
    if s != [] && s[|s| - 1].time > e.time {
      var n := |s| - 1;
      assert NoLaterThan(s[..n], t);
      InsertByTimeBound(s[..n], e, t);
      var r := InsertByTime(s[..n], e);
      assert forall i :: 0 <= i < |r| ==> (r + [s[n]])[i] == r[i];
    } else {
      assert forall i :: 0 <= i < |s| ==> (s + [e])[i] == s[i];
    }
  }

  lemma {:induction false} InsertByTimeAtTime(s: seq<NoteEvent>, e: NoteEvent, t: real)
    ensures AtTime(InsertByTime(s, e), t) == AtTime(s, t) + AtTime([e], t)
  {
    if s == [] || s[|s| - 1].time <= e.time {
      AtTimeAppend(s, [e], t);
    } else {
      var n := |s| - 1;
      var r := InsertByTime(s[..n], e);
      assert InsertByTime(s, e) == r + [s[n]];
      InsertByTimeAtTime(s[..n], e, t);
      AtTimeAppend(r, [s[n]], t);
      assert s == s[..n] + [s[n]];
      AtTimeAppend(s[..n], [s[n]], t);
      assert AtTime([e], t) == (if e.time == t then [e] else []);
      assert AtTime([s[n]], t) == (if s[n].time == t then [s[n]] else []);
    }
  }

  /** The sort returns a time-ordered permutation that keeps events of equal time in their input order. */
  lemma SortByTimeCorrect(s: seq<NoteEvent>)
    ensures SortedByTime(SortByTime(s))
    ensures multiset(SortByTime(s)) == multiset(s)
    ensures forall t :: AtTime(SortByTime(s), t) == AtTime(s, t)
  {
    SortByTimeSorted(s);
    SortByTimePermutes(s);
    forall t
      ensures AtTime(SortByTime(s), t) == AtTime(s, t)
    {
      SortByTimeStable(s, t);
    }
  }

  lemma {:induction false} SortByTimeSorted(s: seq<NoteEvent>)
    ensures SortedByTime(SortByTime(s))
  {
    if s != [] {
      var n := |s| - 1;
      SortByTimeSorted(s[..n]);
      InsertByTimeSorted(SortByTime(s[..n]), s[n]);
    }
  }

  lemma {:induction false} SortByTimePermutes(s: seq<NoteEvent>)
    ensures multiset(SortByTime(s)) == multiset(s)
  {
    if s != [] {
      var n := |s| - 1;
      SortByTimePermutes(s[..n]);
      InsertByTimeMultiset(SortByTime(s[..n]), s[n]);
      assert s == s[..n] + [s[n]];
    }
  }

  lemma {:induction false} SortByTimeStable(s: seq<NoteEvent>, t: real)
    ensures AtTime(SortByTime(s), t) == AtTime(s, t)
  {
    if s != [] {
      var n := |s| - 1;
      SortByTimeStable(s[..n], t);
      assert s == s[..n] + [s[n]];
      AtTimeAppend(s[..n], [s[n]], t);
      InsertByTimeAtTime(SortByTime(s[..n]), s[n], t);
    }
  }

  lemma {:induction false} AtTimeAppend(a: seq<NoteEvent>, b: seq<NoteEvent>, t: real)
    ensures AtTime(a + b, t) == AtTime(a, t) + AtTime(b, t)
    decreases |b|
  {
    if b != [] {
      var n := |b| - 1;
      assert (a + b)[..|a + b| - 1] == a + b[..n];
      AtTimeAppend(a, b[..n], t);
    } else {
      assert a + b == a;
    }
  }

  // ---------------------------------------------------------------------
  // The builder
  // ---------------------------------------------------------------------

  class PatternBuilder {
    const bpm: int
    const stepsPerBar: int
    const stepDuration: real

    ghost predicate Valid() {
      bpm != 0 && stepsPerBar > 0
    }

    /** Dividing by `bpm` or by `steps_per_bar` raises when either is 0. */
    constructor (bpm: int := 140, stepsPerBar: int := 16)
      requires bpm != 0 && stepsPerBar > 0
      ensures Valid()
      ensures this.bpm == bpm && this.stepsPerBar == stepsPerBar
      ensures stepDuration == StepDuration(bpm, stepsPerBar)
    {
      this.bpm := bpm;
      this.stepsPerBar := stepsPerBar;
      this.stepDuration := 60.0 / bpm as real / (stepsPerBar as real / 4.0);
    }

    method CreateDrumPattern(style: string, bars: int := 4, complexity: real := 0.5)
      returns (notes: seq<NoteEvent>, ghost draws: seq<DrumDraws>)
      requires Valid()
      ensures |draws| == TotalSteps(stepsPerBar, bars)
      ensures AllDrawsOk(StyleOf(style), stepsPerBar, draws)
      ensures notes == Drums(StyleOf(style), stepsPerBar, stepDuration, complexity, draws)
    {
      var s := Lower(style);
      if s == "memphis" {
        notes, draws := MemphisPattern(bars, complexity);
      } else if s == "trap" {
        notes, draws := TrapPattern(bars, complexity);
      } else if s == "lofi" {
        notes, draws := LofiPattern(bars, complexity);
      } else if s == "boom_bap" {
        notes, draws := BoomBapPattern(bars, complexity);
      } else {
        notes := BasicPattern(bars);
        draws := NoDraws(TotalSteps(stepsPerBar, bars));
        BasicIgnoresComplexity(stepsPerBar, stepDuration, 0.0, complexity, draws);
      }
    }

    /**
     * Every generator below runs `for step in range(total_steps)` and appends
     * the step's events; the events of one step are built by a method of
     * their own, so that each proof stays small.
     */
    method MemphisPattern(bars: int, complexity: real) returns (notes: seq<NoteEvent>, ghost draws: seq<DrumDraws>)
      requires Valid()
      ensures |draws| == TotalSteps(stepsPerBar, bars)
      ensures AllDrawsOk(Memphis, stepsPerBar, draws)
      ensures notes == Drums(Memphis, stepsPerBar, stepDuration, complexity, draws)
    {
      notes, draws := [], [];
      var totalSteps := stepsPerBar * bars;
      var step := 0;
      while step < totalSteps
        invariant step == |draws| <= TotalSteps(stepsPerBar, bars)
        invariant AllDrawsOk(Memphis, stepsPerBar, draws)
        invariant notes == Drums(Memphis, stepsPerBar, stepDuration, complexity, draws)
      {
        var events, d := MemphisStepEvents(step, complexity);
        DrumsSnoc(Memphis, stepsPerBar, stepDuration, complexity, draws, d);
        notes := notes + events;
        draws := draws + [d];
        step := step + 1;
      }
    }

    method MemphisStepEvents(step: int, complexity: real) returns (events: seq<NoteEvent>, ghost d: DrumDraws)
      requires Valid()
      ensures DrawsOk(Memphis, step % stepsPerBar, d)
      ensures events == DrumStep(Memphis, stepsPerBar, stepDuration, complexity, step, d)
    {
      var time := step as real * stepDuration;
      var pos := step % stepsPerBar;
      // kick on 1 and 3, sometimes 4
      var kickRoll := 0.0;
      var kickHit := pos == 0 || pos == 8;
      if !kickHit && pos == 12 {
        kickRoll :| 0.0 <= kickRoll < 1.0;
        kickHit := kickRoll < complexity;
      }
      var kickVelocity := 90;
      var kicks := [];
      if kickHit {
        kickVelocity :| 90 <= kickVelocity <= 110;
        kicks := [NoteEvent(Kick, kickVelocity, time, stepDuration * 2.0)];
      }
      assert kicks == if pos == 0 || pos == 8 || (pos == 12 && kickRoll < complexity)
                      then [NoteEvent(Kick, kickVelocity, time, stepDuration * 2.0)] else [];
      // snare on 2 and 4
      var snareVelocity := 100;
      var snares := [];
      if pos == 4 || pos == 12 {
        snareVelocity :| 100 <= snareVelocity <= 120;
        snares := [NoteEvent(Snare, snareVelocity, time, stepDuration)];
      }
      // hi-hats on even steps, odd ones by draw
      var hatRoll := 0.0;
      var hatHit := pos % 2 == 0;
      if !hatHit {
        hatRoll :| 0.0 <= hatRoll < 1.0;
        hatHit := hatRoll < complexity;
      }
      var hatVelocity := if pos % 2 == 1 then 60 else 70;
      var hats := [];
      if hatHit {
        if pos % 2 == 1 {
          hatVelocity :| 60 <= hatVelocity <= 90;
        } else {
          hatVelocity :| 70 <= hatVelocity <= 100;
        }
        hats := [NoteEvent(HiHat, hatVelocity, time, stepDuration * 0.8)];
      }
      assert hats == if pos % 2 == 0 || hatRoll < complexity
                     then [NoteEvent(HiHat, hatVelocity, time, stepDuration * 0.8)] else [];
      events := kicks + snares + hats;
      d := DrumDraws(kickRoll, kickVelocity, snareVelocity, hatRoll, hatVelocity, 0.0, []);
      assert time == StepTime(Memphis, step, stepDuration);
      assert events == MemphisStep(pos, time, stepDuration, complexity, d);
    }

    method TrapPattern(bars: int, complexity: real) returns (notes: seq<NoteEvent>, ghost draws: seq<DrumDraws>)
      requires Valid()
      ensures |draws| == TotalSteps(stepsPerBar, bars)
      ensures AllDrawsOk(Trap, stepsPerBar, draws)
      ensures notes == Drums(Trap, stepsPerBar, stepDuration, complexity, draws)
    {
      notes, draws := [], [];
      var totalSteps := stepsPerBar * bars;
      var step := 0;
      while step < totalSteps
        invariant step == |draws| <= TotalSteps(stepsPerBar, bars)
        invariant AllDrawsOk(Trap, stepsPerBar, draws)
        invariant notes == Drums(Trap, stepsPerBar, stepDuration, complexity, draws)
      {
        var events, d := TrapStepEvents(step, complexity);
        DrumsSnoc(Trap, stepsPerBar, stepDuration, complexity, draws, d);
        notes := notes + events;
        draws := draws + [d];
        step := step + 1;
      }
    }

    method TrapStepEvents(step: int, complexity: real) returns (events: seq<NoteEvent>, ghost d: DrumDraws)
      requires Valid()
      ensures DrawsOk(Trap, step % stepsPerBar, d)
      ensures events == DrumStep(Trap, stepsPerBar, stepDuration, complexity, step, d)
    {
      var time := step as real * stepDuration;
      var pos := step % stepsPerBar;
      // sparse kicks
      var kickVelocity := 100;
      var kicks := [];
      if pos == 0 || pos == 6 || pos == 10 {
        kickVelocity :| 100 <= kickVelocity <= 127;
        kicks := [NoteEvent(Kick, kickVelocity, time, stepDuration * 3.0)];
      }
      // snare on 3
      var snareVelocity := 110;
      var snares := [];
      if pos == 8 {
        snareVelocity :| 110 <= snareVelocity <= 127;
        snares := [NoteEvent(Snare, snareVelocity, time, stepDuration * 2.0)];
      }
      // hi-hats on even steps
      var hatVelocity := 60;
      var hats := [];
      if pos % 2 == 0 {
        hatVelocity :| 60 <= hatVelocity <= 80;
        hats := [NoteEvent(HiHat, hatVelocity, time, stepDuration * 0.7)];
      }
      // triplet roll, depending on complexity
      var rollRoll := 0.0;
      ghost var velocities := [80, 80, 80];
      var roll := [];
      if complexity > 0.6 && (pos == 7 || pos == 15) {
        rollRoll :| 0.0 <= rollRoll < 1.0;
        if rollRoll < 0.7 {
          roll, velocities := TripletRoll(time);
        }
      }
      assert roll == if complexity > 0.6 && (pos == 7 || pos == 15) && rollRoll < 0.7
                     then Roll(time, stepDuration, velocities) else [];
      events := kicks + snares + hats + roll;
      d := DrumDraws(0.0, kickVelocity, snareVelocity, 0.0, hatVelocity, rollRoll, velocities);
      assert time == StepTime(Trap, step, stepDuration);
      assert events == TrapStep(pos, time, stepDuration, complexity, d);
    }

    /** Three hi-hats a third of a step apart, each with its own velocity draw. */
    method TripletRoll(time: real) returns (events: seq<NoteEvent>, ghost velocities: seq<int>)
      ensures |velocities| == 3 && forall k :: 0 <= k < 3 ==> 80 <= velocities[k] <= 100
      ensures events == Roll(time, stepDuration, velocities)
    {
      events, velocities := [], [];
      for i := 0 to 3
        invariant |velocities| == i
        invariant forall k :: 0 <= k < i ==> 80 <= velocities[k] <= 100
        invariant events == Roll(time, stepDuration, velocities)
      {
        var velocity :| 80 <= velocity <= 100;
        var hat := NoteEvent(HiHat, velocity, time + i as real * stepDuration / 3.0, stepDuration / 3.0);
        assert (velocities + [velocity])[..i] == velocities;
        assert Roll(time, stepDuration, velocities + [velocity]) == Roll(time, stepDuration, velocities) + [hat];
        events := events + [hat];
        velocities := velocities + [velocity];
      }
    }

    method LofiPattern(bars: int, complexity: real) returns (notes: seq<NoteEvent>, ghost draws: seq<DrumDraws>)
      requires Valid()
      ensures |draws| == TotalSteps(stepsPerBar, bars)
      ensures AllDrawsOk(Lofi, stepsPerBar, draws)
      ensures notes == Drums(Lofi, stepsPerBar, stepDuration, complexity, draws)
    {
      notes, draws := [], [];
      var totalSteps := stepsPerBar * bars;
      var step := 0;
      while step < totalSteps
        invariant step == |draws| <= TotalSteps(stepsPerBar, bars)
        invariant AllDrawsOk(Lofi, stepsPerBar, draws)
        invariant notes == Drums(Lofi, stepsPerBar, stepDuration, complexity, draws)
      {
        var events, d := LofiStepEvents(step, complexity);
        DrumsSnoc(Lofi, stepsPerBar, stepDuration, complexity, draws, d);
        notes := notes + events;
        draws := draws + [d];
        step := step + 1;
      }
    }

    method LofiStepEvents(step: int, complexity: real) returns (events: seq<NoteEvent>, ghost d: DrumDraws)
      requires Valid()
      ensures DrawsOk(Lofi, step % stepsPerBar, d)
      ensures events == DrumStep(Lofi, stepsPerBar, stepDuration, complexity, step, d)
    {
      var swing := Swing;
      // swing on the off-beats
      var time;
      if step % 2 == 1 {
        time := (step - 1) as real * stepDuration + stepDuration * swing;
      } else {
        time := step as real * stepDuration;
      }
      assert time == StepTime(Lofi, step, stepDuration);
      var pos := step % stepsPerBar;
      var kickVelocity := 70;
      var kicks := [];
      if pos == 0 || pos == 8 {
        kickVelocity :| 70 <= kickVelocity <= 90;
        kicks := [NoteEvent(Kick, kickVelocity, time, stepDuration * 2.0)];
      }
      var snareVelocity := 60;
      var snares := [];
      if pos == 4 || pos == 12 {
        snareVelocity :| 60 <= snareVelocity <= 80;
        snares := [NoteEvent(Snare, snareVelocity, time, stepDuration)];
      }
      var hatVelocity := 40;
      var hats := [];
      if pos % 2 == 0 {
        hatVelocity :| 40 <= hatVelocity <= 60;
        hats := [NoteEvent(HiHat, hatVelocity, time, stepDuration)];
      }
      events := kicks + snares + hats;
      d := DrumDraws(0.0, kickVelocity, snareVelocity, 0.0, hatVelocity, 0.0, []);
    }

    method BoomBapPattern(bars: int, complexity: real) returns (notes: seq<NoteEvent>, ghost draws: seq<DrumDraws>)
      requires Valid()
      ensures |draws| == TotalSteps(stepsPerBar, bars)
      ensures AllDrawsOk(BoomBap, stepsPerBar, draws)
      ensures notes == Drums(BoomBap, stepsPerBar, stepDuration, complexity, draws)
    {
      notes, draws := [], [];
      var totalSteps := stepsPerBar * bars;
      var step := 0;
      while step < totalSteps
        invariant step == |draws| <= TotalSteps(stepsPerBar, bars)
        invariant AllDrawsOk(BoomBap, stepsPerBar, draws)
        invariant notes == Drums(BoomBap, stepsPerBar, stepDuration, complexity, draws)
      {
        var events, d := BoomBapStepEvents(step, complexity);
        DrumsSnoc(BoomBap, stepsPerBar, stepDuration, complexity, draws, d);
        notes := notes + events;
        draws := draws + [d];
        step := step + 1;
      }
    }

    method BoomBapStepEvents(step: int, complexity: real) returns (events: seq<NoteEvent>, ghost d: DrumDraws)
      requires Valid()
      ensures DrawsOk(BoomBap, step % stepsPerBar, d)
      ensures events == DrumStep(BoomBap, stepsPerBar, stepDuration, complexity, step, d)
    {
      var time := step as real * stepDuration;
      var pos := step % stepsPerBar;
      var kickVelocity := 110;
      var kicks := [];
      if pos == 0 || pos == 10 {
        kickVelocity :| 110 <= kickVelocity <= 127;
        kicks := [NoteEvent(Kick, kickVelocity, time, stepDuration * 2.0)];
      }
      var snareVelocity := 100;
      var snares := [];
      if pos == 4 || pos == 12 {
        snareVelocity :| 100 <= snareVelocity <= 120;
        snares := [NoteEvent(Snare, snareVelocity, time, stepDuration)];
      }
      var hatVelocity := 50;
      var hats := [];
      if pos % 4 == 0 {
        hatVelocity :| 50 <= hatVelocity <= 70;
        hats := [NoteEvent(HiHat, hatVelocity, time, stepDuration)];
      }
      events := kicks + snares + hats;
      d := DrumDraws(0.0, kickVelocity, snareVelocity, 0.0, hatVelocity, 0.0, []);
      assert time == StepTime(BoomBap, step, stepDuration);
      assert events == BoomBapStep(pos, time, stepDuration, d);
    }

    method BasicPattern(bars: int) returns (notes: seq<NoteEvent>)
      requires Valid()
      ensures notes == Drums(Basic, stepsPerBar, stepDuration, 0.0, NoDraws(TotalSteps(stepsPerBar, bars)))
    {
      notes := [];
      var totalSteps := stepsPerBar * bars;
      ghost var draws: seq<DrumDraws> := [];
      var step := 0;
      while step < totalSteps
        invariant step == |draws| <= TotalSteps(stepsPerBar, bars)
        invariant draws == NoDraws(step)
        invariant notes == Drums(Basic, stepsPerBar, stepDuration, 0.0, draws)
      {
        var events := BasicStepEvents(step);
        DrumsSnoc(Basic, stepsPerBar, stepDuration, 0.0, draws, NoDraw);
        notes := notes + events;
        assert draws + [NoDraw] == NoDraws(step + 1);
        draws := draws + [NoDraw];
        step := step + 1;
      }
      assert step == TotalSteps(stepsPerBar, bars);
    }

    method BasicStepEvents(step: int) returns (events: seq<NoteEvent>)
      requires Valid()
      ensures events == DrumStep(Basic, stepsPerBar, stepDuration, 0.0, step, NoDraw)
    {
      var time := step as real * stepDuration;
      var pos := step % stepsPerBar;
      // kick on every beat
      var kicks := if pos % 4 == 0 then [NoteEvent(Kick, 100, time, stepDuration)] else [];
      // snare on 2 and 4
      var snares := if pos == 4 || pos == 12 then [NoteEvent(Snare, 100, time, stepDuration)] else [];
      // hi-hats on eighth notes
      var hats := if pos % 2 == 0 then [NoteEvent(HiHat, 80, time, stepDuration)] else [];
      events := kicks + snares + hats;
    }

    /**
     * `random.choice(scale[:n])` raises IndexError on an empty scale, so the
     * bouncy and rolling patterns need a non-empty scale whenever they draw.
     */
    method Create808Bassline(rootNote: int := 36, scale: seq<int> := [0, 2, 4, 5, 7, 9, 11], bars: int := 4,
                             patternType: string := "simple")
      returns (notes: seq<NoteEvent>, ghost draws: seq<BassDraw>)
      requires Valid()
      requires BassCount(BassStyleOf(patternType), stepsPerBar, bars) > 0 && patternType != "simple" ==> scale != []
      ensures |draws| == BassCount(BassStyleOf(patternType), stepsPerBar, bars)
      ensures forall k :: 0 <= k < |draws| ==> BassDrawOk(BassStyleOf(patternType), scale, draws[k])
      ensures notes == Bassline(BassStyleOf(patternType), rootNote, stepsPerBar, stepDuration, draws)
    {
      if patternType == "simple" {
        notes, draws := SimpleBassline(rootNote, scale, bars);
      } else if patternType == "bouncy" {
        notes, draws := BouncyBassline(rootNote, scale, bars);
      } else if patternType == "rolling" {
        notes, draws := RollingBassline(rootNote, scale, bars);
      } else {
        assert BassStyleOf(patternType) == NoBass;
        notes, draws := [], [];
      }
    }

    /** The simple pattern: the root on beats 1 and 3 of every bar. */
    method SimpleBassline(rootNote: int, scale: seq<int>, bars: int)
      returns (notes: seq<NoteEvent>, ghost draws: seq<BassDraw>)
      requires Valid()
      ensures |draws| == BassCount(Simple, stepsPerBar, bars)
      ensures forall k :: 0 <= k < |draws| ==> BassDrawOk(Simple, scale, draws[k])
      ensures notes == Bassline(Simple, rootNote, stepsPerBar, stepDuration, draws)
    {
      var style := Simple;
      notes, draws := [], [];
      var bar := 0;
      while bar < bars
        invariant 0 <= bar <= (if bars > 0 then bars else 0)
        invariant |draws| == 2 * bar
        invariant forall k :: 0 <= k < |draws| ==> BassDrawOk(style, scale, draws[k])
        invariant notes == Bassline(style, rootNote, stepsPerBar, stepDuration, draws)
      {
        // the root on beats 1 and 3
        var beats := [0, 8];
        for j := 0 to |beats|
          invariant |draws| == 2 * bar + j
          invariant forall k :: 0 <= k < |draws| ==> BassDrawOk(style, scale, draws[k])
          invariant notes == Bassline(style, rootNote, stepsPerBar, stepDuration, draws)
        {
          var note, d := SimpleBassNote(rootNote, bar, beats[j]);
          BasslineSnoc(style, rootNote, stepsPerBar, stepDuration, draws, d);
          notes := notes + [note];
          draws := draws + [d];
        }
        bar := bar + 1;
      }
    }

    /** The bouncy pattern: six notes a bar, on `BouncySteps`. */
    method BouncyBassline(rootNote: int, scale: seq<int>, bars: int)
      returns (notes: seq<NoteEvent>, ghost draws: seq<BassDraw>)
      requires Valid()
      requires BassCount(Bouncy, stepsPerBar, bars) > 0 ==> scale != []
      ensures |draws| == BassCount(Bouncy, stepsPerBar, bars)
      ensures forall k :: 0 <= k < |draws| ==> BassDrawOk(Bouncy, scale, draws[k])
      ensures notes == Bassline(Bouncy, rootNote, stepsPerBar, stepDuration, draws)
    {
      var style := Bouncy;
      notes, draws := [], [];
      var bar := 0;
      while bar < bars
        invariant 0 <= bar <= (if bars > 0 then bars else 0)
        invariant |draws| == 6 * bar
        invariant forall k :: 0 <= k < |draws| ==> BassDrawOk(style, scale, draws[k])
        invariant notes == Bassline(style, rootNote, stepsPerBar, stepDuration, draws)
      {
        var patternSteps := BouncySteps;
        for j := 0 to |patternSteps|
          invariant |draws| == 6 * bar + j
          invariant forall k :: 0 <= k < |draws| ==> BassDrawOk(style, scale, draws[k])
          invariant notes == Bassline(style, rootNote, stepsPerBar, stepDuration, draws)
        {
          assert BassCount(style, stepsPerBar, bars) > 0;
          var note, d := BouncyBassNote(rootNote, scale, bar, j);
          BasslineSnoc(style, rootNote, stepsPerBar, stepDuration, draws, d);
          notes := notes + [note];
          draws := draws + [d];
        }
        bar := bar + 1;
      }
    }

    /** The rolling pattern: fast rolls on every other step. */
    method RollingBassline(rootNote: int, scale: seq<int>, bars: int)
      returns (notes: seq<NoteEvent>, ghost draws: seq<BassDraw>)
      requires Valid()
      requires BassCount(Rolling, stepsPerBar, bars) > 0 ==> scale != []
      ensures |draws| == BassCount(Rolling, stepsPerBar, bars)
      ensures forall k :: 0 <= k < |draws| ==> BassDrawOk(Rolling, scale, draws[k])
      ensures notes == Bassline(Rolling, rootNote, stepsPerBar, stepDuration, draws)
    {
      var style := Rolling;
      notes, draws := [], [];
      var totalSteps := stepsPerBar * bars;
      var step := 0;
      while step < totalSteps
        invariant step == 2 * |draws|
        invariant step <= TotalSteps(stepsPerBar, bars) + 1
        invariant forall k :: 0 <= k < |draws| ==> BassDrawOk(style, scale, draws[k])
        invariant notes == Bassline(style, rootNote, stepsPerBar, stepDuration, draws)
      {
        assert BassCount(style, stepsPerBar, bars) > 0;
        var note, d := RollingBassNote(rootNote, scale, step);
        BasslineSnoc(style, rootNote, stepsPerBar, stepDuration, draws, d);
        notes := notes + [note];
        draws := draws + [d];
        step := step + 2;
      }
      assert totalSteps > 0 ==> totalSteps == TotalSteps(stepsPerBar, bars);
    }

    /** One root note of the simple pattern, `beat` being 0 or 8. */
    method SimpleBassNote(rootNote: int, bar: int, beat: int) returns (note: NoteEvent, ghost d: BassDraw)
      requires beat == 0 || beat == 8
      ensures BassDrawOk(Simple, [], d)
      ensures note == BassNote(Simple, rootNote, stepsPerBar, stepDuration, 2 * bar + (if beat == 0 then 0 else 1), d)
    {
      var step := bar * stepsPerBar + beat;
      var velocity :| 100 <= velocity <= 120;
      note := NoteEvent(rootNote, velocity, step as real * stepDuration, stepDuration * 3.0);
      d := BassDraw(0, velocity);
    }

    /** The `j`-th note of a bar of the bouncy pattern. */
    method BouncyBassNote(rootNote: int, scale: seq<int>, bar: int, j: int) returns (note: NoteEvent, ghost d: BassDraw)
      requires scale != [] && 0 <= j < |BouncySteps|
      ensures BassDrawOk(Bouncy, scale, d)
      ensures note == BassNote(Bouncy, rootNote, stepsPerBar, stepDuration, 6 * bar + j, d)
    {
      var step := bar * stepsPerBar + BouncySteps[j];
      var choices := Take(scale, 4);
      var index :| 0 <= index < |choices|;
      var interval := choices[index];
      var velocity :| 90 <= velocity <= 110;
      note := NoteEvent(rootNote + interval, velocity, step as real * stepDuration, stepDuration * 2.0);
      d := BassDraw(interval, velocity);
      assert (6 * bar + j) / 6 == bar && (6 * bar + j) % 6 == j;
    }

    /** The note of the rolling pattern at `step`. */
    method RollingBassNote(rootNote: int, scale: seq<int>, step: int) returns (note: NoteEvent, ghost d: BassDraw)
      requires scale != [] && step % 2 == 0
      ensures BassDrawOk(Rolling, scale, d)
      ensures note == BassNote(Rolling, rootNote, stepsPerBar, stepDuration, step / 2, d)
    {
      var choices := Take(scale, 3);
      var index :| 0 <= index < |choices|;
      var interval := choices[index];
      var velocity :| 80 <= velocity <= 100;
      note := NoteEvent(rootNote + interval, velocity, step as real * stepDuration, stepDuration * 1.5);
      d := BassDraw(interval, velocity);
    }

    /** Concatenates the patterns in argument order, then sorts the result by time, keeping ties in order. */
    method CombinePatterns(patterns: seq<seq<NoteEvent>>) returns (combined: seq<NoteEvent>)
      ensures |combined| == TotalLength(patterns)
      ensures multiset(combined) == multiset(Flatten(patterns))
      ensures SortedByTime(combined)
      ensures forall t :: AtTime(combined, t) == AtTime(Flatten(patterns), t)
    {
      combined := [];
      for i := 0 to |patterns|
        invariant combined == Flatten(patterns[..i])
        invariant |combined| == TotalLength(patterns[..i])
      {
        assert patterns[..i + 1][..i] == patterns[..i];
        combined := combined + patterns[i];
      }
      assert patterns[..|patterns|] == patterns;
      SortByTimeCorrect(combined);
      assert |SortByTime(combined)| == |multiset(SortByTime(combined))| == |multiset(combined)| == |combined|;
      combined := SortByTime(combined);
    }
  }
}
