/**
 * What the drum and bass generators promise, proved about the functions
 * their methods are specified by: how many events a bar holds, where the
 * hits fall, and the ranges their velocities come from.  The counts are
 * stated for the default grid of 16 steps per bar.
 */
module PatternFacts {
  import opened Patterns

  // ---------------------------------------------------------------------
  // Counting events
  // ---------------------------------------------------------------------

  /** What is counted: every event, or the events of one drum. */
  datatype Measure = Events | OfNote(note: int)

  function Counts(m: Measure, e: NoteEvent): nat {
    if m.Events? || e.note == m.note then 1 else 0
  }

  /** How many events of `s` play `note`. */
  function NoteCount(note: int, s: seq<NoteEvent>): nat {
    if s == [] then 0 else NoteCount(note, s[..|s| - 1]) + (if s[|s| - 1].note == note then 1 else 0)
  }

  /** How many events of `s` the measure counts. */
  function Tally(m: Measure, s: seq<NoteEvent>): nat {
    match m
    case Events => |s|
    case OfNote(note) => NoteCount(note, s)
  }

  function Ind(b: bool): nat {
    if b then 1 else 0
  }

  lemma TallyAppend(m: Measure, a: seq<NoteEvent>, b: seq<NoteEvent>)
    ensures Tally(m, a + b) == Tally(m, a) + Tally(m, b)
  {
    if m.OfNote? {
      NoteCountAppend(m.note, a, b);
    }
  }

  lemma {:induction false} NoteCountAppend(note: int, a: seq<NoteEvent>, b: seq<NoteEvent>)
    ensures NoteCount(note, a + b) == NoteCount(note, a) + NoteCount(note, b)
    decreases |b|
  {
    if b == [] {
      assert a + b == a;
    } else {
      var n := |b| - 1;
      assert (a + b)[..|a + b| - 1] == a + b[..n];
      NoteCountAppend(note, a, b[..n]);
    }
  }

  lemma TallySingle(m: Measure, e: NoteEvent)
    ensures Tally(m, [e]) == Counts(m, e)
  {
    if m.OfNote? {
      assert [e][..0] == [];
      assert NoteCount(m.note, [e]) == NoteCount(m.note, []) + (if e.note == m.note then 1 else 0);
    }
  }

  /** The tally of one optional hit. */
  lemma HitTally(m: Measure, b: bool, e: NoteEvent)
    ensures Tally(m, if b then [e] else []) == Ind(b) * Counts(m, e)
  {
    if b {
      TallySingle(m, e);
    }
  }

  /** `sum(j)` is the total of `count` over the bar positions before `j`. */
  predicate RunningSum(count: int -> int, sum: int -> int) {
    sum(0) == 0 && forall j :: 0 <= j < 16 ==> sum(j + 1) == sum(j) + count(j)
  }

  /** The running total of a per-position count over `n` steps of 16-step bars. */
  function GridSum(sum: int -> int, n: nat): int
    decreases n
  {
    if n < 16 then sum(n) else sum(16) + GridSum(sum, n - 16)
  }

  /** One more step adds the count of its bar position. */
  lemma {:induction false} GridSumStep(k: int -> int, sum: int -> int, n: nat)
    requires RunningSum(k, sum)
    ensures GridSum(sum, n + 1) == GridSum(sum, n) + k(n % 16)
    decreases n
  {
    if n >= 16 {
      GridSumStep(k, sum, n - 16);
      assert (n - 16) % 16 == n % 16;
    } else if n == 15 {
      assert GridSum(sum, 16) == sum(16) + sum(0);
    }
  }

  lemma {:induction false} GridSumBars(sum: int -> int, bars: nat)
    ensures GridSum(sum, 16 * bars) == sum(16) * bars + sum(0)
  {
    if bars > 0 {
      GridSumBars(sum, bars - 1);
    }
  }

  /**
   * The counting principle of a step grid: when the step at bar position `j`
   * adds at least `count(j)` counted events, the pattern holds at least the
   * running total of `count` over its steps; and the same for at most.
   */
  lemma {:induction false} GridAtLeast(style: DrumStyle, sd: real, complexity: real, draws: seq<DrumDraws>, m: Measure,
                                       count: int -> int, sum: int -> int)
    requires RunningSum(count, sum)
    requires forall s :: 0 <= s < |draws| ==> count(s % 16) <= Tally(m, DrumStep(style, 16, sd, complexity, s, draws[s]))
    ensures GridSum(sum, |draws|) <= Tally(m, Drums(style, 16, sd, complexity, draws))
  {
    if draws != [] {
      var n := |draws| - 1;
      var prefix, last := Drums(style, 16, sd, complexity, draws[..n]), DrumStep(style, 16, sd, complexity, n, draws[n]);
      GridAtLeast(style, sd, complexity, draws[..n], m, count, sum);
      TallyAppend(m, prefix, last);
      assert Drums(style, 16, sd, complexity, draws) == prefix + last;
      GridSumStep(count, sum, n);
    }
  }

  lemma {:induction false} GridAtMost(style: DrumStyle, sd: real, complexity: real, draws: seq<DrumDraws>, m: Measure,
                                      count: int -> int, sum: int -> int)
    requires RunningSum(count, sum)
    requires forall s :: 0 <= s < |draws| ==> Tally(m, DrumStep(style, 16, sd, complexity, s, draws[s])) <= count(s % 16)
    ensures Tally(m, Drums(style, 16, sd, complexity, draws)) <= GridSum(sum, |draws|)
  {
    if draws != [] {
      var n := |draws| - 1;
      var prefix, last := Drums(style, 16, sd, complexity, draws[..n]), DrumStep(style, 16, sd, complexity, n, draws[n]);
      GridAtMost(style, sd, complexity, draws[..n], m, count, sum);
      TallyAppend(m, prefix, last);
      assert Drums(style, 16, sd, complexity, draws) == prefix + last;
      GridSumStep(count, sum, n);
    }
  }

  /** Full bars: every bar of 16 steps holds at least `sum(16)` counted events. */
  lemma BarsAtLeast(style: DrumStyle, sd: real, complexity: real, draws: seq<DrumDraws>, m: Measure, bars: nat,
                    count: int -> int, sum: int -> int, total: int)
    requires |draws| == 16 * bars && RunningSum(count, sum) && sum(16) == total
    requires forall s :: 0 <= s < |draws| ==> count(s % 16) <= Tally(m, DrumStep(style, 16, sd, complexity, s, draws[s]))
    ensures total * bars <= Tally(m, Drums(style, 16, sd, complexity, draws))
  {
    GridAtLeast(style, sd, complexity, draws, m, count, sum);
    GridSumBars(sum, bars);
  }

  /** Full bars: every bar of 16 steps holds at most `sum(16)` counted events. */
  lemma BarsAtMost(style: DrumStyle, sd: real, complexity: real, draws: seq<DrumDraws>, m: Measure, bars: nat,
                   count: int -> int, sum: int -> int, total: int)
    requires |draws| == 16 * bars && RunningSum(count, sum) && sum(16) == total
    requires forall s :: 0 <= s < |draws| ==> Tally(m, DrumStep(style, 16, sd, complexity, s, draws[s])) <= count(s % 16)
    ensures Tally(m, Drums(style, 16, sd, complexity, draws)) <= total * bars
  {
    GridAtMost(style, sd, complexity, draws, m, count, sum);
    GridSumBars(sum, bars);
  }

  lemma Tally3(m: Measure, a: seq<NoteEvent>, b: seq<NoteEvent>, c: seq<NoteEvent>)
    ensures Tally(m, a + b + c) == Tally(m, a) + Tally(m, b) + Tally(m, c)
  {
    TallyAppend(m, a + b, c);
    TallyAppend(m, a, b);
  }

  // ---------------------------------------------------------------------
  // Events per bar, style by style
  // ---------------------------------------------------------------------

  /** An even bar position (of the 16), spelled out. */
  predicate EvenPos(j: int) {
    j == 0 || j == 2 || j == 4 || j == 6 || j == 8 || j == 10 || j == 12 || j == 14
  }

  /** A bar position on a beat. */
  predicate QuarterPos(j: int) {
    j == 0 || j == 4 || j == 8 || j == 12
  }

  lemma PositionParity(j: int)
    requires 0 <= j < 16
    ensures EvenPos(j) <==> j % 2 == 0
    ensures QuarterPos(j) <==> j % 4 == 0
  {
  }

  /** Kicks on 0 and 8, snares on 4 and 12, hi-hats on even positions: lo-fi, and Memphis without its optional hits. */
  function BackbeatCount(j: int): int {
    Ind(j == 0 || j == 8) + Ind(j == 4 || j == 12) + Ind(EvenPos(j))
  }

  function BackbeatSum(j: int): int {
    Ind(j > 0) + Ind(j > 8) + Ind(j > 4) + Ind(j > 12) + (j + 1) / 2
  }

  /** Memphis with every optional hit: a kick on 12 as well, and a hi-hat on every position. */
  function MemphisFullCount(j: int): int {
    Ind(j == 0 || j == 8 || j == 12) + Ind(j == 4 || j == 12) + 1
  }

  function MemphisFullSum(j: int): int {
    Ind(j > 0) + Ind(j > 8) + Ind(j > 12) + Ind(j > 4) + Ind(j > 12) + j
  }

  function TrapCount(j: int): int {
    Ind(j == 0 || j == 6 || j == 10) + Ind(j == 8) + Ind(EvenPos(j))
  }

  function TrapSum(j: int): int {
    Ind(j > 0) + Ind(j > 6) + Ind(j > 10) + Ind(j > 8) + (j + 1) / 2
  }

  /** Trap with a triplet roll on both 7 and 15. */
  function TrapRollCount(j: int): int {
    Ind(j == 0 || j == 6 || j == 10) + Ind(j == 8) + Ind(EvenPos(j)) + 3 * Ind(j == 7 || j == 15)
  }

  function TrapRollSum(j: int): int {
    Ind(j > 0) + Ind(j > 6) + Ind(j > 10) + Ind(j > 8) + (j + 1) / 2 + 3 * Ind(j > 7) + 3 * Ind(j > 15)
  }

  function BoomBapCount(j: int): int {
    Ind(j == 0 || j == 10) + Ind(j == 4 || j == 12) + Ind(QuarterPos(j))
  }

  function BoomBapSum(j: int): int {
    Ind(j > 0) + Ind(j > 10) + Ind(j > 4) + Ind(j > 12) + (j + 3) / 4
  }

  function BasicCount(j: int): int {
    Ind(QuarterPos(j)) + Ind(j == 4 || j == 12) + Ind(EvenPos(j))
  }

  function BasicSum(j: int): int {
    (j + 3) / 4 + Ind(j > 4) + Ind(j > 12) + (j + 1) / 2
  }

  function TrapKickCount(j: int): int {
    Ind(j == 0 || j == 6 || j == 10)
  }

  function TrapKickSum(j: int): int {
    Ind(j > 0) + Ind(j > 6) + Ind(j > 10)
  }

  function TrapSnareCount(j: int): int {
    Ind(j == 8)
  }

  function TrapSnareSum(j: int): int {
    Ind(j > 8)
  }

  /** The three roll events are hi-hats, a third of a step apart and a third of a step long. */
  lemma {:induction false} RollShape(time: real, sd: real, velocities: seq<int>)
    ensures forall i :: 0 <= i < |velocities| ==>
      Roll(time, sd, velocities)[i] == NoteEvent(HiHat, velocities[i], time + i as real * sd / 3.0, sd / 3.0)
  {
    if velocities != [] {
      RollShape(time, sd, velocities[..|velocities| - 1]);
    }
  }

  lemma RollTally(m: Measure, time: real, sd: real, velocities: seq<int>)
    requires m == Events || m == OfNote(Kick) || m == OfNote(Snare)
    ensures Tally(m, Roll(time, sd, velocities)) == if m == Events then |velocities| else 0
    decreases |velocities|
  {
    if velocities != [] {
      var i := |velocities| - 1;
      RollTally(m, time, sd, velocities[..i]);
      TallyAppend(m, Roll(time, sd, velocities[..i]), [NoteEvent(HiHat, velocities[i], time + i as real * sd / 3.0, sd / 3.0)]);
      TallySingle(m, NoteEvent(HiHat, velocities[i], time + i as real * sd / 3.0, sd / 3.0));
    }
  }

  lemma TrapStepTally(m: Measure, pos: int, time: real, sd: real, complexity: real, d: DrumDraws)
    requires m == Events || m == OfNote(Kick) || m == OfNote(Snare)
    ensures Tally(m, TrapStep(pos, time, sd, complexity, d)) ==
      Ind(pos == 0 || pos == 6 || pos == 10) * Ind(m != OfNote(Snare)) + Ind(pos == 8) * Ind(m != OfNote(Kick)) +
      Ind(pos % 2 == 0) * Ind(m == Events) +
      (if complexity > 0.6 && (pos == 7 || pos == 15) && d.rollRoll < 0.7 then Ind(m == Events) * |d.rollVelocities| else 0)
  {
    var kicks := if pos == 0 || pos == 6 || pos == 10 then [NoteEvent(Kick, d.kickVelocity, time, sd * 3.0)] else [];
    var snares := if pos == 8 then [NoteEvent(Snare, d.snareVelocity, time, sd * 2.0)] else [];
    var hats := if pos % 2 == 0 then [NoteEvent(HiHat, d.hatVelocity, time, sd * 0.7)] else [];
    var roll := if complexity > 0.6 && (pos == 7 || pos == 15) && d.rollRoll < 0.7 then Roll(time, sd, d.rollVelocities) else [];
    assert TrapStep(pos, time, sd, complexity, d) == kicks + snares + hats + roll;
    TallyAppend(m, kicks + snares + hats, roll);
    Tally3(m, kicks, snares, hats);
    HitTally(m, pos == 0 || pos == 6 || pos == 10, NoteEvent(Kick, d.kickVelocity, time, sd * 3.0));
    HitTally(m, pos == 8, NoteEvent(Snare, d.snareVelocity, time, sd * 2.0));
    HitTally(m, pos % 2 == 0, NoteEvent(HiHat, d.hatVelocity, time, sd * 0.7));
    RollTally(m, time, sd, d.rollVelocities);
  }

  lemma Halves(j: int)
    ensures (j + 2) / 2 == (j + 1) / 2 + Ind(j % 2 == 0)
    ensures (j + 1) / 2 == j / 2 + Ind(j % 2 == 1)
  {
    if j % 2 == 0 {
      assert j == 2 * (j / 2);
    } else {
      assert j == 2 * (j / 2) + 1;
    }
  }

  lemma Quarters(j: int)
    ensures (j + 4) / 4 == (j + 3) / 4 + Ind(j % 4 == 0)
  {
    var q, r := j / 4, j % 4;
    assert j == 4 * q + r;
  }

  // Each running total is the sum of its per-position counts.

  lemma BackbeatRunning()
    ensures RunningSum(BackbeatCount, BackbeatSum)
  {
    forall j | 0 <= j < 16
      ensures BackbeatSum(j + 1) == BackbeatSum(j) + BackbeatCount(j)
    {
      Halves(j);
      Quarters(j);
      PositionParity(j);
    }
  }

  lemma MemphisFullRunning()
    ensures RunningSum(MemphisFullCount, MemphisFullSum)
  {
  }

  lemma TrapRunning()
    ensures RunningSum(TrapCount, TrapSum)
  {
    forall j | 0 <= j < 16
      ensures TrapSum(j + 1) == TrapSum(j) + TrapCount(j)
    {
      Halves(j);
      Quarters(j);
      PositionParity(j);
    }
  }

  lemma TrapRollRunning()
    ensures RunningSum(TrapRollCount, TrapRollSum)
  {
    forall j | 0 <= j < 16
      ensures TrapRollSum(j + 1) == TrapRollSum(j) + TrapRollCount(j)
    {
      Halves(j);
      PositionParity(j);
    }
  }

  lemma BoomBapRunning()
    ensures RunningSum(BoomBapCount, BoomBapSum)
  {
    forall j | 0 <= j < 16
      ensures BoomBapSum(j + 1) == BoomBapSum(j) + BoomBapCount(j)
    {
      Halves(j);
      Quarters(j);
      PositionParity(j);
    }
  }

  lemma BasicRunning()
    ensures RunningSum(BasicCount, BasicSum)
  {
    forall j | 0 <= j < 16
      ensures BasicSum(j + 1) == BasicSum(j) + BasicCount(j)
    {
      Halves(j);
      Quarters(j);
      PositionParity(j);
    }
  }

  lemma TrapKickRunning()
    ensures RunningSum(TrapKickCount, TrapKickSum)
  {
    forall j | 0 <= j < 16
      ensures TrapKickSum(j + 1) == TrapKickSum(j) + TrapKickCount(j)
    {
      Halves(j);
      Quarters(j);
      PositionParity(j);
    }
  }

  lemma TrapSnareRunning()
    ensures RunningSum(TrapSnareCount, TrapSnareSum)
  {
    forall j | 0 <= j < 16
      ensures TrapSnareSum(j + 1) == TrapSnareSum(j) + TrapSnareCount(j)
    {
      Halves(j);
      Quarters(j);
      PositionParity(j);
    }
  }

  lemma TrapStepCounts(sd: real, complexity: real, s: int, d: DrumDraws)
    requires DrawsOk(Trap, s % 16, d)
    ensures Tally(OfNote(Kick), DrumStep(Trap, 16, sd, complexity, s, d)) == TrapKickCount(s % 16)
    ensures Tally(OfNote(Snare), DrumStep(Trap, 16, sd, complexity, s, d)) == TrapSnareCount(s % 16)
    ensures TrapCount(s % 16) <= Tally(Events, DrumStep(Trap, 16, sd, complexity, s, d)) <= TrapRollCount(s % 16)
    ensures complexity <= 0.6 ==> Tally(Events, DrumStep(Trap, 16, sd, complexity, s, d)) == TrapCount(s % 16)
  {
    PositionParity(s % 16);
    TrapStepTally(OfNote(Kick), s % 16, StepTime(Trap, s, sd), sd, complexity, d);
    TrapStepTally(OfNote(Snare), s % 16, StepTime(Trap, s, sd), sd, complexity, d);
    TrapStepTally(Events, s % 16, StepTime(Trap, s, sd), sd, complexity, d);
  }

  lemma TrapKicksCounted(sd: real, complexity: real, draws: seq<DrumDraws>)
    requires AllDrawsOk(Trap, 16, draws)
    ensures forall s :: 0 <= s < |draws| ==>
      Tally(OfNote(Kick), DrumStep(Trap, 16, sd, complexity, s, draws[s])) == TrapKickCount(s % 16)
  {
    forall s | 0 <= s < |draws|
      ensures Tally(OfNote(Kick), DrumStep(Trap, 16, sd, complexity, s, draws[s])) == TrapKickCount(s % 16)
    {
      TrapStepCounts(sd, complexity, s, draws[s]);
    }
  }

  lemma TrapSnaresCounted(sd: real, complexity: real, draws: seq<DrumDraws>)
    requires AllDrawsOk(Trap, 16, draws)
    ensures forall s :: 0 <= s < |draws| ==>
      Tally(OfNote(Snare), DrumStep(Trap, 16, sd, complexity, s, draws[s])) == TrapSnareCount(s % 16)
  {
    forall s | 0 <= s < |draws|
      ensures Tally(OfNote(Snare), DrumStep(Trap, 16, sd, complexity, s, draws[s])) == TrapSnareCount(s % 16)
    {
      TrapStepCounts(sd, complexity, s, draws[s]);
    }
  }

  lemma TrapEventsAtLeast(sd: real, complexity: real, draws: seq<DrumDraws>)
    requires AllDrawsOk(Trap, 16, draws)
    ensures forall s :: 0 <= s < |draws| ==> TrapCount(s % 16) <= |DrumStep(Trap, 16, sd, complexity, s, draws[s])|
  {
    forall s | 0 <= s < |draws|
      ensures TrapCount(s % 16) <= |DrumStep(Trap, 16, sd, complexity, s, draws[s])|
    {
      TrapStepCounts(sd, complexity, s, draws[s]);
    }
  }

  lemma TrapEventsAtMost(sd: real, complexity: real, draws: seq<DrumDraws>)
    requires AllDrawsOk(Trap, 16, draws)
    ensures forall s :: 0 <= s < |draws| ==> Tally(Events, DrumStep(Trap, 16, sd, complexity, s, draws[s])) <= TrapRollCount(s % 16)
  {
    forall s | 0 <= s < |draws|
      ensures Tally(Events, DrumStep(Trap, 16, sd, complexity, s, draws[s])) <= TrapRollCount(s % 16)
    {
      TrapStepCounts(sd, complexity, s, draws[s]);
    }
  }

  lemma TrapEventsCounted(sd: real, complexity: real, draws: seq<DrumDraws>)
    requires AllDrawsOk(Trap, 16, draws) && complexity <= 0.6
    ensures forall s :: 0 <= s < |draws| ==> |DrumStep(Trap, 16, sd, complexity, s, draws[s])| == TrapCount(s % 16)
  {
    forall s | 0 <= s < |draws|
      ensures |DrumStep(Trap, 16, sd, complexity, s, draws[s])| == TrapCount(s % 16)
    {
      TrapStepCounts(sd, complexity, s, draws[s]);
    }
  }

  /** Trap: every bar has its kicks on 0, 6 and 10, three of them. */
  lemma TrapKicksPerBar(sd: real, complexity: real, draws: seq<DrumDraws>, bars: nat)
    requires |draws| == 16 * bars && AllDrawsOk(Trap, 16, draws)
    ensures Tally(OfNote(Kick), Drums(Trap, 16, sd, complexity, draws)) == 3 * bars
  {
    TrapKicksCounted(sd, complexity, draws);
    TrapKickRunning();
    BarsAtLeast(Trap, sd, complexity, draws, OfNote(Kick), bars, TrapKickCount, TrapKickSum, 3);
    BarsAtMost(Trap, sd, complexity, draws, OfNote(Kick), bars, TrapKickCount, TrapKickSum, 3);
  }

  /** Trap: every bar has one snare, on 8. */
  lemma TrapSnaresPerBar(sd: real, complexity: real, draws: seq<DrumDraws>, bars: nat)
    requires |draws| == 16 * bars && AllDrawsOk(Trap, 16, draws)
    ensures Tally(OfNote(Snare), Drums(Trap, 16, sd, complexity, draws)) == bars
  {
    TrapSnaresCounted(sd, complexity, draws);
    TrapSnareRunning();
    BarsAtLeast(Trap, sd, complexity, draws, OfNote(Snare), bars, TrapSnareCount, TrapSnareSum, 1);
    BarsAtMost(Trap, sd, complexity, draws, OfNote(Snare), bars, TrapSnareCount, TrapSnareSum, 1);
  }

  /** Trap: a bar holds at least its 12 fixed events. */
  lemma TrapEventsLowerBound(sd: real, complexity: real, draws: seq<DrumDraws>, bars: nat)
    requires |draws| == 16 * bars && AllDrawsOk(Trap, 16, draws)
    ensures 12 * bars <= |Drums(Trap, 16, sd, complexity, draws)|
  {
    TrapEventsAtLeast(sd, complexity, draws);
    TrapRunning();
    BarsAtLeast(Trap, sd, complexity, draws, Events, bars, TrapCount, TrapSum, 12);
  }

  /** Trap: a bar holds at most 18 events, the 12 fixed ones and the two rolls on 7 and 15. */
  lemma TrapEventsUpperBound(sd: real, complexity: real, draws: seq<DrumDraws>, bars: nat)
    requires |draws| == 16 * bars && AllDrawsOk(Trap, 16, draws)
    ensures |Drums(Trap, 16, sd, complexity, draws)| <= 18 * bars
  {
    TrapEventsAtMost(sd, complexity, draws);
    TrapRollRunning();
    BarsAtMost(Trap, sd, complexity, draws, Events, bars, TrapRollCount, TrapRollSum, 18);
  }

  /** Trap with a complexity of at most 0.6 (the trap template's) plays no roll: exactly 12 events a bar. */
  lemma TrapPlainPerBar(sd: real, complexity: real, draws: seq<DrumDraws>, bars: nat)
    requires |draws| == 16 * bars && AllDrawsOk(Trap, 16, draws) && complexity <= 0.6
    ensures |Drums(Trap, 16, sd, complexity, draws)| == 12 * bars
  {
    TrapEventsCounted(sd, complexity, draws);
    TrapRunning();
    BarsAtLeast(Trap, sd, complexity, draws, Events, bars, TrapCount, TrapSum, 12);
    BarsAtMost(Trap, sd, complexity, draws, Events, bars, TrapCount, TrapSum, 12);
  }

  // Memphis: 12 fixed events a bar, up to 9 more by draw.

  lemma MemphisStepCounts(sd: real, complexity: real, s: int, d: DrumDraws)
    requires DrawsOk(Memphis, s % 16, d)
    ensures BackbeatCount(s % 16) <= |DrumStep(Memphis, 16, sd, complexity, s, d)| <= MemphisFullCount(s % 16)
    ensures complexity <= 0.0 ==> |DrumStep(Memphis, 16, sd, complexity, s, d)| == BackbeatCount(s % 16)
    ensures complexity >= 1.0 ==> |DrumStep(Memphis, 16, sd, complexity, s, d)| == MemphisFullCount(s % 16)
  {
    PositionParity(s % 16);
  }

  lemma MemphisEventsAtLeast(sd: real, complexity: real, draws: seq<DrumDraws>)
    requires AllDrawsOk(Memphis, 16, draws)
    ensures forall s :: 0 <= s < |draws| ==> BackbeatCount(s % 16) <= |DrumStep(Memphis, 16, sd, complexity, s, draws[s])|
  {
    forall s | 0 <= s < |draws|
      ensures BackbeatCount(s % 16) <= |DrumStep(Memphis, 16, sd, complexity, s, draws[s])|
    {
      MemphisStepCounts(sd, complexity, s, draws[s]);
    }
  }

  lemma MemphisEventsAtMost(sd: real, complexity: real, draws: seq<DrumDraws>)
    requires AllDrawsOk(Memphis, 16, draws)
    ensures forall s :: 0 <= s < |draws| ==> |DrumStep(Memphis, 16, sd, complexity, s, draws[s])| <= MemphisFullCount(s % 16)
  {
    forall s | 0 <= s < |draws|
      ensures |DrumStep(Memphis, 16, sd, complexity, s, draws[s])| <= MemphisFullCount(s % 16)
    {
      MemphisStepCounts(sd, complexity, s, draws[s]);
    }
  }

  lemma MemphisSparseCounted(sd: real, complexity: real, draws: seq<DrumDraws>)
    requires AllDrawsOk(Memphis, 16, draws) && complexity <= 0.0
    ensures forall s :: 0 <= s < |draws| ==> |DrumStep(Memphis, 16, sd, complexity, s, draws[s])| == BackbeatCount(s % 16)
  {
    forall s | 0 <= s < |draws|
      ensures |DrumStep(Memphis, 16, sd, complexity, s, draws[s])| == BackbeatCount(s % 16)
    {
      MemphisStepCounts(sd, complexity, s, draws[s]);
    }
  }

  lemma MemphisDenseCounted(sd: real, complexity: real, draws: seq<DrumDraws>)
    requires AllDrawsOk(Memphis, 16, draws) && complexity >= 1.0
    ensures forall s :: 0 <= s < |draws| ==> |DrumStep(Memphis, 16, sd, complexity, s, draws[s])| == MemphisFullCount(s % 16)
  {
    forall s | 0 <= s < |draws|
      ensures |DrumStep(Memphis, 16, sd, complexity, s, draws[s])| == MemphisFullCount(s % 16)
    {
      MemphisStepCounts(sd, complexity, s, draws[s]);
    }
  }

  /** Memphis: a bar holds at least its 12 fixed events (kicks on 0 and 8, snares on 4 and 12, 8 hi-hats). */
  lemma MemphisEventsLowerBound(sd: real, complexity: real, draws: seq<DrumDraws>, bars: nat)
    requires |draws| == 16 * bars && AllDrawsOk(Memphis, 16, draws)
    ensures 12 * bars <= |Drums(Memphis, 16, sd, complexity, draws)|
  {
    MemphisEventsAtLeast(sd, complexity, draws);
    BackbeatRunning();
    BarsAtLeast(Memphis, sd, complexity, draws, Events, bars, BackbeatCount, BackbeatSum, 12);
  }

  /** Memphis: a bar holds at most 21 events, when the kick on 12 and all 8 odd hi-hats are drawn. */
  lemma MemphisEventsUpperBound(sd: real, complexity: real, draws: seq<DrumDraws>, bars: nat)
    requires |draws| == 16 * bars && AllDrawsOk(Memphis, 16, draws)
    ensures |Drums(Memphis, 16, sd, complexity, draws)| <= 21 * bars
  {
    MemphisEventsAtMost(sd, complexity, draws);
    MemphisFullRunning();
    BarsAtMost(Memphis, sd, complexity, draws, Events, bars, MemphisFullCount, MemphisFullSum, 21);
  }

  /** Memphis with no complexity plays none of its optional hits: exactly 12 events a bar. */
  lemma MemphisSparsePerBar(sd: real, complexity: real, draws: seq<DrumDraws>, bars: nat)
    requires |draws| == 16 * bars && AllDrawsOk(Memphis, 16, draws) && complexity <= 0.0
    ensures |Drums(Memphis, 16, sd, complexity, draws)| == 12 * bars
  {
    MemphisSparseCounted(sd, complexity, draws);
    BackbeatRunning();
    BarsAtLeast(Memphis, sd, complexity, draws, Events, bars, BackbeatCount, BackbeatSum, 12);
    BarsAtMost(Memphis, sd, complexity, draws, Events, bars, BackbeatCount, BackbeatSum, 12);
  }

  /** Memphis with full complexity plays every optional hit: exactly 21 events a bar. */
  lemma MemphisDensePerBar(sd: real, complexity: real, draws: seq<DrumDraws>, bars: nat)
    requires |draws| == 16 * bars && AllDrawsOk(Memphis, 16, draws) && complexity >= 1.0
    ensures |Drums(Memphis, 16, sd, complexity, draws)| == 21 * bars
  {
    MemphisDenseCounted(sd, complexity, draws);
    MemphisFullRunning();
    BarsAtLeast(Memphis, sd, complexity, draws, Events, bars, MemphisFullCount, MemphisFullSum, 21);
    BarsAtMost(Memphis, sd, complexity, draws, Events, bars, MemphisFullCount, MemphisFullSum, 21);
  }

  // Lo-fi, boom-bap and basic have no optional hits.

  lemma FixedStepCounts(sd: real, complexity: real, s: int, d: DrumDraws)
    ensures |DrumStep(Lofi, 16, sd, complexity, s, d)| == BackbeatCount(s % 16)
    ensures |DrumStep(BoomBap, 16, sd, complexity, s, d)| == BoomBapCount(s % 16)
    ensures |DrumStep(Basic, 16, sd, complexity, s, d)| == BasicCount(s % 16)
  {
    PositionParity(s % 16);
  }

  lemma LofiCounted(sd: real, complexity: real, draws: seq<DrumDraws>)
    ensures forall s :: 0 <= s < |draws| ==> |DrumStep(Lofi, 16, sd, complexity, s, draws[s])| == BackbeatCount(s % 16)
  {
    forall s | 0 <= s < |draws|
      ensures |DrumStep(Lofi, 16, sd, complexity, s, draws[s])| == BackbeatCount(s % 16)
    {
      FixedStepCounts(sd, complexity, s, draws[s]);
    }
  }

  lemma BoomBapCounted(sd: real, complexity: real, draws: seq<DrumDraws>)
    ensures forall s :: 0 <= s < |draws| ==> |DrumStep(BoomBap, 16, sd, complexity, s, draws[s])| == BoomBapCount(s % 16)
  {
    forall s | 0 <= s < |draws|
      ensures |DrumStep(BoomBap, 16, sd, complexity, s, draws[s])| == BoomBapCount(s % 16)
    {
      FixedStepCounts(sd, complexity, s, draws[s]);
    }
  }

  lemma BasicCounted(sd: real, complexity: real, draws: seq<DrumDraws>)
    ensures forall s :: 0 <= s < |draws| ==> |DrumStep(Basic, 16, sd, complexity, s, draws[s])| == BasicCount(s % 16)
  {
    forall s | 0 <= s < |draws|
      ensures |DrumStep(Basic, 16, sd, complexity, s, draws[s])| == BasicCount(s % 16)
    {
      FixedStepCounts(sd, complexity, s, draws[s]);
    }
  }

  /** Lo-fi: exactly 12 events a bar. */
  lemma LofiPerBar(sd: real, complexity: real, draws: seq<DrumDraws>, bars: nat)
    requires |draws| == 16 * bars
    ensures |Drums(Lofi, 16, sd, complexity, draws)| == 12 * bars
  {
    LofiCounted(sd, complexity, draws);
    BackbeatRunning();
    BarsAtLeast(Lofi, sd, complexity, draws, Events, bars, BackbeatCount, BackbeatSum, 12);
    BarsAtMost(Lofi, sd, complexity, draws, Events, bars, BackbeatCount, BackbeatSum, 12);
  }

  /** Boom-bap: exactly 8 events a bar. */
  lemma BoomBapPerBar(sd: real, complexity: real, draws: seq<DrumDraws>, bars: nat)
    requires |draws| == 16 * bars
    ensures |Drums(BoomBap, 16, sd, complexity, draws)| == 8 * bars
  {
    BoomBapCounted(sd, complexity, draws);
    BoomBapRunning();
    BarsAtLeast(BoomBap, sd, complexity, draws, Events, bars, BoomBapCount, BoomBapSum, 8);
    BarsAtMost(BoomBap, sd, complexity, draws, Events, bars, BoomBapCount, BoomBapSum, 8);
  }

  /** Basic: exactly 14 events a bar (4 kicks, 2 snares, 8 hi-hats). */
  lemma BasicPerBar(sd: real, complexity: real, draws: seq<DrumDraws>, bars: nat)
    requires |draws| == 16 * bars
    ensures |Drums(Basic, 16, sd, complexity, draws)| == 14 * bars
  {
    BasicCounted(sd, complexity, draws);
    BasicRunning();
    BarsAtLeast(Basic, sd, complexity, draws, Events, bars, BasicCount, BasicSum, 14);
    BarsAtMost(Basic, sd, complexity, draws, Events, bars, BasicCount, BasicSum, 14);
  }

  // ---------------------------------------------------------------------
  // 808 basslines
  // ---------------------------------------------------------------------

  /** The `k`-th event of a bassline is its `k`-th note. */
  lemma {:induction false} BasslineAt(style: BassStyle, root: int, stepsPerBar: int, sd: real, draws: seq<BassDraw>, k: int)
    requires 0 <= k < |draws|
    ensures Bassline(style, root, stepsPerBar, sd, draws)[k] == BassNote(style, root, stepsPerBar, sd, k, draws[k])
  {
    var n := |draws| - 1;
    if k < n {
      BasslineAt(style, root, stepsPerBar, sd, draws[..n], k);
      assert draws[..n][k] == draws[k];
    }
  }

  /**
   * What every bass note is, style by style: simple notes sit on the root
   * on steps 0 and 8 of each bar and last three steps; bouncy notes take one
   * of the first four scale intervals on the bouncy steps and last two;
   * rolling notes take one of the first three intervals on every even step
   * and last one and a half.
   */
  lemma BasslineShape(style: BassStyle, root: int, scale: seq<int>, stepsPerBar: int, bars: int, sd: real,
                      draws: seq<BassDraw>, k: int)
    requires |draws| == BassCount(style, stepsPerBar, bars)
    requires forall i :: 0 <= i < |draws| ==> BassDrawOk(style, scale, draws[i])
    requires 0 <= k < |draws|
    ensures style != NoBass
    ensures style == Simple ==>
      var e := Bassline(style, root, stepsPerBar, sd, draws)[k];
      e.note == root && 100 <= e.velocity <= 120 && e.duration == sd * 3.0 && 0 <= k / 2 < bars &&
      e.time == ((k / 2) * stepsPerBar + (if k % 2 == 0 then 0 else 8)) as real * sd
    ensures style == Bouncy ==>
      var e := Bassline(style, root, stepsPerBar, sd, draws)[k];
      e.note - root in Take(scale, 4) && 90 <= e.velocity <= 110 && e.duration == sd * 2.0 && 0 <= k / 6 < bars &&
      e.time == ((k / 6) * stepsPerBar + BouncySteps[k % 6]) as real * sd
    ensures style == Rolling ==>
      var e := Bassline(style, root, stepsPerBar, sd, draws)[k];
      e.note - root in Take(scale, 3) && 80 <= e.velocity <= 100 && e.duration == sd * 1.5 &&
      e.time == (2 * k) as real * sd && 2 * k < TotalSteps(stepsPerBar, bars)
  {
    BasslineAt(style, root, stepsPerBar, sd, draws, k);
    assert BassDrawOk(style, scale, draws[k]);
  }

  /** Simple basslines have two notes a bar and bouncy ones six; rolling ones one per even step. */
  lemma BasslineLength(style: BassStyle, root: int, stepsPerBar: int, bars: nat, sd: real, draws: seq<BassDraw>)
    requires |draws| == BassCount(style, stepsPerBar, bars)
    ensures style == Simple ==> |Bassline(style, root, stepsPerBar, sd, draws)| == 2 * bars
    ensures style == Bouncy ==> |Bassline(style, root, stepsPerBar, sd, draws)| == 6 * bars
    ensures style == Rolling && stepsPerBar % 2 == 0 && stepsPerBar > 0 ==>
      |Bassline(style, root, stepsPerBar, sd, draws)| == (stepsPerBar / 2) * bars
    ensures style == NoBass ==> Bassline(style, root, stepsPerBar, sd, draws) == []
  {
    if style == Rolling && stepsPerBar % 2 == 0 && stepsPerBar > 0 {
      var h := stepsPerBar / 2;
      assert stepsPerBar * bars == 2 * (h * bars);
    }
  }
}
