/**
 * Where the drum generators place their hits and which velocities those
 * hits carry: every event of a pattern comes from one step, and a style's
 * rules say which steps of the bar play which drum.
 */
module PatternPlaces {
  import opened Patterns

  // ---------------------------------------------------------------------
  // Every event comes from one step
  // ---------------------------------------------------------------------

  /** The events of each step, in step order. */
  function Steps(style: DrumStyle, stepsPerBar: int, sd: real, complexity: real, draws: seq<DrumDraws>): (r: seq<seq<NoteEvent>>)
    requires stepsPerBar > 0
    ensures |r| == |draws|
    ensures forall s :: 0 <= s < |draws| ==> r[s] == DrumStep(style, stepsPerBar, sd, complexity, s, draws[s])
  {
    seq(|draws|, s requires 0 <= s < |draws| => DrumStep(style, stepsPerBar, sd, complexity, s, draws[s]))
  }

  /** A pattern is its steps' events laid end to end. */
  lemma {:induction false} DrumsAreSteps(style: DrumStyle, stepsPerBar: int, sd: real, complexity: real, draws: seq<DrumDraws>)
    requires stepsPerBar > 0
    ensures Drums(style, stepsPerBar, sd, complexity, draws) == Flatten(Steps(style, stepsPerBar, sd, complexity, draws))
  {
    if draws != [] {
      var n := |draws| - 1;
      var all, prefix := Steps(style, stepsPerBar, sd, complexity, draws), Steps(style, stepsPerBar, sd, complexity, draws[..n]);
      DrumsAreSteps(style, stepsPerBar, sd, complexity, draws[..n]);
      assert all[..n] == prefix;
    }
  }

  lemma {:induction false} FlattenMembers(patterns: seq<seq<NoteEvent>>, e: NoteEvent)
    ensures e in Flatten(patterns) <==> exists k :: 0 <= k < |patterns| && e in patterns[k]
  {
    if patterns != [] {
      var n := |patterns| - 1;
      FlattenMembers(patterns[..n], e);
      if e in Flatten(patterns[..n]) {
        var k :| 0 <= k < n && e in patterns[..n][k];
        assert patterns[..n][k] == patterns[k];
      }
      if k :| 0 <= k < n && e in patterns[k] {
        assert patterns[..n][k] == patterns[k];
      }
    }
  }

  /** An event belongs to a pattern exactly when one of its steps plays it. */
  lemma DrumsMembers(style: DrumStyle, stepsPerBar: int, sd: real, complexity: real, draws: seq<DrumDraws>, e: NoteEvent)
    requires stepsPerBar > 0
    ensures e in Drums(style, stepsPerBar, sd, complexity, draws) <==>
      exists s :: 0 <= s < |draws| && e in DrumStep(style, stepsPerBar, sd, complexity, s, draws[s])
  {
    DrumsAreSteps(style, stepsPerBar, sd, complexity, draws);
    FlattenMembers(Steps(style, stepsPerBar, sd, complexity, draws), e);
  }

  /** The step a pattern event comes from. */
  lemma StepOf(style: DrumStyle, stepsPerBar: int, sd: real, complexity: real, draws: seq<DrumDraws>, e: NoteEvent)
    returns (s: int)
    requires stepsPerBar > 0 && e in Drums(style, stepsPerBar, sd, complexity, draws)
    ensures 0 <= s < |draws| && e in DrumStep(style, stepsPerBar, sd, complexity, s, draws[s])
  {
    DrumsMembers(style, stepsPerBar, sd, complexity, draws, e);
    s :| 0 <= s < |draws| && e in DrumStep(style, stepsPerBar, sd, complexity, s, draws[s]);
  }

  /** Whatever a step plays is in the pattern. */
  lemma StepInDrums(style: DrumStyle, stepsPerBar: int, sd: real, complexity: real, draws: seq<DrumDraws>,
                    s: int, e: NoteEvent)
    requires stepsPerBar > 0 && 0 <= s < |draws| && e in DrumStep(style, stepsPerBar, sd, complexity, s, draws[s])
    ensures e in Drums(style, stepsPerBar, sd, complexity, draws)
  {
    DrumsMembers(style, stepsPerBar, sd, complexity, draws, e);
  }

  /** Every roll event is a hi-hat a whole number of thirds of a step after the roll starts. */
  lemma {:induction false} RollMembers(time: real, sd: real, velocities: seq<int>, e: NoteEvent)
    requires e in Roll(time, sd, velocities)
    ensures exists i :: 0 <= i < |velocities| &&
                        e == NoteEvent(HiHat, velocities[i], time + i as real * sd / 3.0, sd / 3.0)
  {
    var n := |velocities| - 1;
    var last := NoteEvent(HiHat, velocities[n], time + n as real * sd / 3.0, sd / 3.0);
    if e != last {
      assert e in Roll(time, sd, velocities[..n]);
      RollMembers(time, sd, velocities[..n], e);
      var i :| 0 <= i < n && e == NoteEvent(HiHat, velocities[..n][i], time + i as real * sd / 3.0, sd / 3.0);
      assert velocities[..n][i] == velocities[i];
    }
  }

  /** Off the lo-fi swing, a step sounds at its place on the grid, and its bar position keeps its parity. */
  lemma OnGrid(style: DrumStyle, s: int, sd: real)
    requires style != Lofi
    ensures StepTime(style, s, sd) == s as real * sd
    ensures s % 16 % 2 == s % 2 && s % 16 % 4 == s % 4
  {
    assert s == 16 * (s / 16) + s % 16;
  }

  // ---------------------------------------------------------------------
  // Trap
  // ---------------------------------------------------------------------

  predicate TrapKickPos(pos: int) {
    pos == 0 || pos == 6 || pos == 10
  }

  predicate TrapRolls(pos: int, complexity: real, d: DrumDraws) {
    complexity > 0.6 && (pos == 7 || pos == 15) && d.rollRoll < 0.7
  }

  /** What one trap step plays. */
  lemma TrapStepMembers(pos: int, time: real, sd: real, complexity: real, d: DrumDraws, e: NoteEvent)
    ensures e in TrapStep(pos, time, sd, complexity, d) <==>
      (TrapKickPos(pos) && e == NoteEvent(Kick, d.kickVelocity, time, sd * 3.0)) ||
      (pos == 8 && e == NoteEvent(Snare, d.snareVelocity, time, sd * 2.0)) ||
      (pos % 2 == 0 && e == NoteEvent(HiHat, d.hatVelocity, time, sd * 0.7)) ||
      (TrapRolls(pos, complexity, d) && e in Roll(time, sd, d.rollVelocities))
  {
    var kicks := if TrapKickPos(pos) then [NoteEvent(Kick, d.kickVelocity, time, sd * 3.0)] else [];
    var snares := if pos == 8 then [NoteEvent(Snare, d.snareVelocity, time, sd * 2.0)] else [];
    var hats := if pos % 2 == 0 then [NoteEvent(HiHat, d.hatVelocity, time, sd * 0.7)] else [];
    var roll := if TrapRolls(pos, complexity, d) then Roll(time, sd, d.rollVelocities) else [];
    assert TrapStep(pos, time, sd, complexity, d) == kicks + snares + hats + roll;
  }

  /** Where a trap event comes from: its step, and that step's events. */
  lemma TrapOrigin(sd: real, complexity: real, draws: seq<DrumDraws>, e: NoteEvent) returns (s: int)
    requires e in Drums(Trap, 16, sd, complexity, draws)
    ensures 0 <= s < |draws|
    ensures
      (TrapKickPos(s % 16) && e == NoteEvent(Kick, draws[s].kickVelocity, s as real * sd, sd * 3.0)) ||
      (s % 16 == 8 && e == NoteEvent(Snare, draws[s].snareVelocity, s as real * sd, sd * 2.0)) ||
      (s % 16 % 2 == 0 && e == NoteEvent(HiHat, draws[s].hatVelocity, s as real * sd, sd * 0.7)) ||
      (TrapRolls(s % 16, complexity, draws[s]) && e in Roll(s as real * sd, sd, draws[s].rollVelocities))
  {
    s := StepOf(Trap, 16, sd, complexity, draws, e);
    OnGrid(Trap, s, sd);
    TrapStepMembers(s % 16, s as real * sd, sd, complexity, draws[s], e);
  }

  /** The trap kicks fall on 0, 6 and 10 of the bar, at the step's time, with a velocity of 100 to 127. */
  lemma TrapKicks(sd: real, complexity: real, draws: seq<DrumDraws>, e: NoteEvent)
    requires AllDrawsOk(Trap, 16, draws) && e in Drums(Trap, 16, sd, complexity, draws) && e.note == Kick
    ensures exists s :: 0 <= s < |draws| && TrapKickPos(s % 16) &&
                        e == NoteEvent(Kick, draws[s].kickVelocity, s as real * sd, sd * 3.0)
    ensures 100 <= e.velocity <= 127
  {
    var s := TrapOrigin(sd, complexity, draws, e);
    if TrapRolls(s % 16, complexity, draws[s]) && e in Roll(s as real * sd, sd, draws[s].rollVelocities) {
      RollMembers(s as real * sd, sd, draws[s].rollVelocities, e);
    }
    assert DrawsOk(Trap, s % 16, draws[s]);
  }

  /** Every trap bar plays its kicks on 0, 6 and 10. */
  lemma TrapKickPlayed(sd: real, complexity: real, draws: seq<DrumDraws>, s: int)
    requires 0 <= s < |draws| && TrapKickPos(s % 16)
    ensures NoteEvent(Kick, draws[s].kickVelocity, s as real * sd, sd * 3.0) in Drums(Trap, 16, sd, complexity, draws)
  {
    var e := NoteEvent(Kick, draws[s].kickVelocity, s as real * sd, sd * 3.0);
    OnGrid(Trap, s, sd);
    TrapStepMembers(s % 16, s as real * sd, sd, complexity, draws[s], e);
    StepInDrums(Trap, 16, sd, complexity, draws, s, e);
  }

  /** The trap snare falls on 8 of the bar, with a velocity of 110 to 127. */
  lemma TrapSnares(sd: real, complexity: real, draws: seq<DrumDraws>, e: NoteEvent)
    requires AllDrawsOk(Trap, 16, draws) && e in Drums(Trap, 16, sd, complexity, draws) && e.note == Snare
    ensures exists s :: 0 <= s < |draws| && s % 16 == 8 &&
                        e == NoteEvent(Snare, draws[s].snareVelocity, s as real * sd, sd * 2.0)
    ensures 110 <= e.velocity <= 127
  {
    var s := TrapOrigin(sd, complexity, draws, e);
    if TrapRolls(s % 16, complexity, draws[s]) && e in Roll(s as real * sd, sd, draws[s].rollVelocities) {
      RollMembers(s as real * sd, sd, draws[s].rollVelocities, e);
    }
    assert DrawsOk(Trap, s % 16, draws[s]);
  }

  /** Every trap bar plays its snare on 8. */
  lemma TrapSnarePlayed(sd: real, complexity: real, draws: seq<DrumDraws>, s: int)
    requires 0 <= s < |draws| && s % 16 == 8
    ensures NoteEvent(Snare, draws[s].snareVelocity, s as real * sd, sd * 2.0) in Drums(Trap, 16, sd, complexity, draws)
  {
    var e := NoteEvent(Snare, draws[s].snareVelocity, s as real * sd, sd * 2.0);
    OnGrid(Trap, s, sd);
    TrapStepMembers(s % 16, s as real * sd, sd, complexity, draws[s], e);
    StepInDrums(Trap, 16, sd, complexity, draws, s, e);
  }

  /**
   * Whatever a trap step plays off the even positions is part of a triplet
   * roll: it needs a complexity above 0.6 and position 7 or 15, and its
   * three hi-hats sound a third of a step apart with a velocity of 80 to 100.
   */
  lemma TrapOffbeat(pos: int, time: real, sd: real, complexity: real, d: DrumDraws, e: NoteEvent)
    requires DrawsOk(Trap, pos, d) && pos % 2 == 1 && e in TrapStep(pos, time, sd, complexity, d)
    ensures complexity > 0.6 && (pos == 7 || pos == 15)
    ensures exists i :: 0 <= i < 3 && e == NoteEvent(HiHat, d.rollVelocities[i], time + i as real * sd / 3.0, sd / 3.0)
    ensures 80 <= e.velocity <= 100
  {
    TrapStepMembers(pos, time, sd, complexity, d, e);
    RollMembers(time, sd, d.rollVelocities, e);
  }

  // ---------------------------------------------------------------------
  // Memphis
  // ---------------------------------------------------------------------

  predicate MemphisKickPlays(pos: int, complexity: real, d: DrumDraws) {
    pos == 0 || pos == 8 || (pos == 12 && d.kickRoll < complexity)
  }

  /** What one Memphis step plays. */
  lemma MemphisStepMembers(pos: int, time: real, sd: real, complexity: real, d: DrumDraws, e: NoteEvent)
    ensures e in MemphisStep(pos, time, sd, complexity, d) <==>
      (MemphisKickPlays(pos, complexity, d) && e == NoteEvent(Kick, d.kickVelocity, time, sd * 2.0)) ||
      ((pos == 4 || pos == 12) && e == NoteEvent(Snare, d.snareVelocity, time, sd)) ||
      ((pos % 2 == 0 || d.hatRoll < complexity) && e == NoteEvent(HiHat, d.hatVelocity, time, sd * 0.8))
  {
    var kicks := if MemphisKickPlays(pos, complexity, d) then [NoteEvent(Kick, d.kickVelocity, time, sd * 2.0)] else [];
    var snares := if pos == 4 || pos == 12 then [NoteEvent(Snare, d.snareVelocity, time, sd)] else [];
    var hats := if pos % 2 == 0 || d.hatRoll < complexity then [NoteEvent(HiHat, d.hatVelocity, time, sd * 0.8)] else [];
    assert MemphisStep(pos, time, sd, complexity, d) == kicks + snares + hats;
  }

  /** Where a Memphis event comes from. */
  lemma MemphisOrigin(sd: real, complexity: real, draws: seq<DrumDraws>, e: NoteEvent) returns (s: int)
    requires e in Drums(Memphis, 16, sd, complexity, draws)
    ensures 0 <= s < |draws|
    ensures
      (MemphisKickPlays(s % 16, complexity, draws[s]) && e == NoteEvent(Kick, draws[s].kickVelocity, s as real * sd, sd * 2.0)) ||
      ((s % 16 == 4 || s % 16 == 12) && e == NoteEvent(Snare, draws[s].snareVelocity, s as real * sd, sd)) ||
      ((s % 2 == 0 || draws[s].hatRoll < complexity) && e == NoteEvent(HiHat, draws[s].hatVelocity, s as real * sd, sd * 0.8))
  {
    s := StepOf(Memphis, 16, sd, complexity, draws, e);
    OnGrid(Memphis, s, sd);
    MemphisStepMembers(s % 16, s as real * sd, sd, complexity, draws[s], e);
  }

  /** A Memphis kick falls on 0 or 8 of the bar, or on 12 when that step's draw is below the complexity. */
  lemma MemphisKicks(sd: real, complexity: real, draws: seq<DrumDraws>, e: NoteEvent)
    requires e in Drums(Memphis, 16, sd, complexity, draws) && e.note == Kick
    ensures exists s :: 0 <= s < |draws| && MemphisKickPlays(s % 16, complexity, draws[s]) &&
                        e == NoteEvent(Kick, draws[s].kickVelocity, s as real * sd, sd * 2.0)
  {
    var s := MemphisOrigin(sd, complexity, draws, e);
  }

  /** Memphis plays the kicks on 0 and 8 always, and the one on 12 exactly when its draw is below the complexity. */
  lemma MemphisKickPlayed(sd: real, complexity: real, draws: seq<DrumDraws>, s: int)
    requires 0 <= s < |draws|
    ensures MemphisKickPlays(s % 16, complexity, draws[s]) <==>
      NoteEvent(Kick, draws[s].kickVelocity, s as real * sd, sd * 2.0) in DrumStep(Memphis, 16, sd, complexity, s, draws[s])
    ensures MemphisKickPlays(s % 16, complexity, draws[s]) ==>
      NoteEvent(Kick, draws[s].kickVelocity, s as real * sd, sd * 2.0) in Drums(Memphis, 16, sd, complexity, draws)
  {
    var e := NoteEvent(Kick, draws[s].kickVelocity, s as real * sd, sd * 2.0);
    OnGrid(Memphis, s, sd);
    MemphisStepMembers(s % 16, s as real * sd, sd, complexity, draws[s], e);
    if MemphisKickPlays(s % 16, complexity, draws[s]) {
      StepInDrums(Memphis, 16, sd, complexity, draws, s, e);
    }
  }

  /** Memphis snares fall exactly on 4 and 12 of the bar. */
  lemma MemphisSnares(sd: real, complexity: real, draws: seq<DrumDraws>, e: NoteEvent)
    requires e in Drums(Memphis, 16, sd, complexity, draws) && e.note == Snare
    ensures exists s :: 0 <= s < |draws| && (s % 16 == 4 || s % 16 == 12) &&
                        e == NoteEvent(Snare, draws[s].snareVelocity, s as real * sd, sd)
  {
    var s := MemphisOrigin(sd, complexity, draws, e);
  }

  lemma MemphisSnarePlayed(sd: real, complexity: real, draws: seq<DrumDraws>, s: int)
    requires 0 <= s < |draws| && (s % 16 == 4 || s % 16 == 12)
    ensures NoteEvent(Snare, draws[s].snareVelocity, s as real * sd, sd) in Drums(Memphis, 16, sd, complexity, draws)
  {
    var e := NoteEvent(Snare, draws[s].snareVelocity, s as real * sd, sd);
    OnGrid(Memphis, s, sd);
    MemphisStepMembers(s % 16, s as real * sd, sd, complexity, draws[s], e);
    StepInDrums(Memphis, 16, sd, complexity, draws, s, e);
  }

  /**
   * Memphis hi-hats: one on every even step, and on an odd step only when its
   * draw is below the complexity; odd ones carry a velocity of 60 to 90,
   * even ones 70 to 100.
   */
  lemma MemphisHats(sd: real, complexity: real, draws: seq<DrumDraws>, e: NoteEvent)
    requires AllDrawsOk(Memphis, 16, draws) && e in Drums(Memphis, 16, sd, complexity, draws) && e.note == HiHat
    ensures exists s :: 0 <= s < |draws| && (s % 2 == 0 || draws[s].hatRoll < complexity) &&
                        e == NoteEvent(HiHat, draws[s].hatVelocity, s as real * sd, sd * 0.8) &&
                        (if s % 2 == 1 then 60 <= e.velocity <= 90 else 70 <= e.velocity <= 100)
  {
    var s := MemphisOrigin(sd, complexity, draws, e);
    OnGrid(Memphis, s, sd);
    assert (s % 2 == 0 || draws[s].hatRoll < complexity) &&
           e == NoteEvent(HiHat, draws[s].hatVelocity, s as real * sd, sd * 0.8);
    assert DrawsOk(Memphis, s % 16, draws[s]);
  }

  lemma MemphisHatPlayed(sd: real, complexity: real, draws: seq<DrumDraws>, s: int)
    requires 0 <= s < |draws| && (s % 2 == 0 || draws[s].hatRoll < complexity)
    ensures NoteEvent(HiHat, draws[s].hatVelocity, s as real * sd, sd * 0.8) in Drums(Memphis, 16, sd, complexity, draws)
  {
    var e := NoteEvent(HiHat, draws[s].hatVelocity, s as real * sd, sd * 0.8);
    OnGrid(Memphis, s, sd);
    MemphisStepMembers(s % 16, s as real * sd, sd, complexity, draws[s], e);
    StepInDrums(Memphis, 16, sd, complexity, draws, s, e);
  }

  // ---------------------------------------------------------------------
  // Lo-fi, boom-bap and basic
  // ---------------------------------------------------------------------

  /** What one lo-fi step plays: only on even bar positions. */
  lemma LofiStepMembers(pos: int, time: real, sd: real, d: DrumDraws, e: NoteEvent)
    ensures e in LofiStep(pos, time, sd, d) <==>
      ((pos == 0 || pos == 8) && e == NoteEvent(Kick, d.kickVelocity, time, sd * 2.0)) ||
      ((pos == 4 || pos == 12) && e == NoteEvent(Snare, d.snareVelocity, time, sd)) ||
      (pos % 2 == 0 && e == NoteEvent(HiHat, d.hatVelocity, time, sd))
  {
    var kicks := if pos == 0 || pos == 8 then [NoteEvent(Kick, d.kickVelocity, time, sd * 2.0)] else [];
    var snares := if pos == 4 || pos == 12 then [NoteEvent(Snare, d.snareVelocity, time, sd)] else [];
    var hats := if pos % 2 == 0 then [NoteEvent(HiHat, d.hatVelocity, time, sd)] else [];
    assert LofiStep(pos, time, sd, d) == kicks + snares + hats;
  }

  /** Every event of a lo-fi step sits at an even bar position, at the step's time. */
  lemma LofiStepEven(pos: int, time: real, sd: real, d: DrumDraws, e: NoteEvent)
    requires e in LofiStep(pos, time, sd, d)
    ensures pos % 2 == 0 && e.time == time
  {
    LofiStepMembers(pos, time, sd, d, e);
  }

  lemma EvenStep(s: int, stepsPerBar: int)
    requires stepsPerBar > 0 && stepsPerBar % 2 == 0 && (s % stepsPerBar) % 2 == 0
    ensures s % 2 == 0
  {
    var q, pos, h := s / stepsPerBar, s % stepsPerBar, stepsPerBar / 2;
    assert s == stepsPerBar * q + pos;
    assert stepsPerBar * q == 2 * (h * q);
  }

  /**
   * Lo-fi plays only on even bar positions, so with an even number of steps
   * per bar every event sits on an even step and on the grid: the swing the
   * source gives odd steps never reaches an event.
   */
  lemma LofiOnGrid(stepsPerBar: int, sd: real, complexity: real, draws: seq<DrumDraws>, e: NoteEvent)
    requires stepsPerBar > 0 && stepsPerBar % 2 == 0 && e in Drums(Lofi, stepsPerBar, sd, complexity, draws)
    ensures exists s :: 0 <= s < |draws| && s % 2 == 0 &&
                        e in DrumStep(Lofi, stepsPerBar, sd, complexity, s, draws[s]) && e.time == s as real * sd
  {
    var s := StepOf(Lofi, stepsPerBar, sd, complexity, draws, e);
    var pos, time := s % stepsPerBar, StepTime(Lofi, s, sd);
    assert e in LofiStep(pos, time, sd, draws[s]);
    LofiStepEven(pos, time, sd, draws[s], e);
    EvenStep(s, stepsPerBar);
    assert time == s as real * sd;
  }

  /** What one boom-bap step plays. */
  lemma BoomBapStepMembers(pos: int, time: real, sd: real, d: DrumDraws, e: NoteEvent)
    ensures e in BoomBapStep(pos, time, sd, d) <==>
      ((pos == 0 || pos == 10) && e == NoteEvent(Kick, d.kickVelocity, time, sd * 2.0)) ||
      ((pos == 4 || pos == 12) && e == NoteEvent(Snare, d.snareVelocity, time, sd)) ||
      (pos % 4 == 0 && e == NoteEvent(HiHat, d.hatVelocity, time, sd))
  {
    var kicks := if pos == 0 || pos == 10 then [NoteEvent(Kick, d.kickVelocity, time, sd * 2.0)] else [];
    var snares := if pos == 4 || pos == 12 then [NoteEvent(Snare, d.snareVelocity, time, sd)] else [];
    var hats := if pos % 4 == 0 then [NoteEvent(HiHat, d.hatVelocity, time, sd)] else [];
    assert BoomBapStep(pos, time, sd, d) == kicks + snares + hats;
  }

  /**
   * Boom-bap: kicks on 0 and 10 of the bar with a velocity of 110 to 127,
   * snares on 4 and 12, hi-hats on 0, 4, 8 and 12.
   */
  lemma BoomBapPlaces(sd: real, complexity: real, draws: seq<DrumDraws>, e: NoteEvent)
    requires AllDrawsOk(BoomBap, 16, draws) && e in Drums(BoomBap, 16, sd, complexity, draws)
    ensures exists s :: 0 <= s < |draws| && e.time == s as real * sd &&
                        (((s % 16 == 0 || s % 16 == 10) && e == NoteEvent(Kick, draws[s].kickVelocity, e.time, sd * 2.0)) ||
                         ((s % 16 == 4 || s % 16 == 12) && e == NoteEvent(Snare, draws[s].snareVelocity, e.time, sd)) ||
                         (s % 4 == 0 && e == NoteEvent(HiHat, draws[s].hatVelocity, e.time, sd)))
    ensures e.note == Kick ==> 110 <= e.velocity <= 127
  {
    var s := StepOf(BoomBap, 16, sd, complexity, draws, e);
    OnGrid(BoomBap, s, sd);
    BoomBapStepMembers(s % 16, StepTime(BoomBap, s, sd), sd, draws[s], e);
    assert DrawsOk(BoomBap, s % 16, draws[s]);
  }

  /** What one basic step plays. */
  lemma BasicStepMembers(pos: int, time: real, sd: real, e: NoteEvent)
    ensures e in BasicStep(pos, time, sd) <==>
      (pos % 4 == 0 && e == NoteEvent(Kick, 100, time, sd)) ||
      ((pos == 4 || pos == 12) && e == NoteEvent(Snare, 100, time, sd)) ||
      (pos % 2 == 0 && e == NoteEvent(HiHat, 80, time, sd))
  {
    var kicks := if pos % 4 == 0 then [NoteEvent(Kick, 100, time, sd)] else [];
    var snares := if pos == 4 || pos == 12 then [NoteEvent(Snare, 100, time, sd)] else [];
    var hats := if pos % 2 == 0 then [NoteEvent(HiHat, 80, time, sd)] else [];
    assert BasicStep(pos, time, sd) == kicks + snares + hats;
  }

  /**
   * Basic velocities are fixed: 100 for the kicks on every fourth step and
   * for the snares on 4 and 12, 80 for the hi-hats on even steps.
   */
  lemma BasicPlaces(stepsPerBar: int, sd: real, complexity: real, draws: seq<DrumDraws>, e: NoteEvent)
    requires stepsPerBar > 0 && e in Drums(Basic, stepsPerBar, sd, complexity, draws)
    ensures exists s :: 0 <= s < |draws| && e.time == s as real * sd && e.duration == sd &&
                        ((e.note == Kick && e.velocity == 100 && s % stepsPerBar % 4 == 0) ||
                         (e.note == Snare && e.velocity == 100 && (s % stepsPerBar == 4 || s % stepsPerBar == 12)) ||
                         (e.note == HiHat && e.velocity == 80 && s % stepsPerBar % 2 == 0))
  {
    var s := StepOf(Basic, stepsPerBar, sd, complexity, draws, e);
    BasicStepMembers(s % stepsPerBar, StepTime(Basic, s, sd), sd, e);
  }
}
