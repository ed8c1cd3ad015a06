/** A whole game: ten frames, the bonus rolls after a spare or strike in the
    tenth, the scorecard, the total and the display text (engine.py:116-229).
    `PlayGame` and the functions on its result are the value-level
    description that `Game.RunGame` is proved against. */
module Games {
  import opened Draws
  import opened Text
  import opened Pins
  import opened Frames

  /** Ten frames played one after another, each on a fresh rack. */
  function PlayFrames(deps: Table, stream: nat -> Draw, pos: nat, n: nat): (r: (seq<FrameRecord>, nat))
    requires Layered(deps)
    ensures |r.0| == n
  {
    if n == 0 then ([], pos)
    else
      var (fs, p) := PlayFrames(deps, stream, pos, n - 1);
      var (f, q) := PlayFrame(deps, stream, p);
      (fs + [f], q)
  }

  /** The rolls after the tenth frame: none after an open frame, one roll on a
      fresh rack after a spare, and after a strike a further frame, followed,
      when that frame is itself a strike, by one more roll on a fresh rack.
      `third` is the rack of the last bonus roll. */
  datatype Bonus = NoBonus | SpareBonus(roll: Rack) | StrikeBonus(extra: FrameRecord, third: Rack)

  function PlayBonus(deps: Table, last: FrameState, stream: nat -> Draw, pos: nat): (Bonus, nat)
    requires Layered(deps)
  {
    match last
    case Open => (NoBonus, pos)
    case Spare =>
      var (r, p) := Rolled(deps, ALL_STANDING, stream, pos);
      (SpareBonus(r), p)
    case Strike =>
      var (g, p) := PlayFrame(deps, stream, pos);
      if g.state == Strike then
        var (t, q) := Rolled(deps, ALL_STANDING, stream, p);
        (StrikeBonus(g, t), q)
      else (StrikeBonus(g, g.result2), p)
  }

  datatype GameRecord = GameRecord(frames: seq<FrameRecord>, bonus: Bonus)

  /** A game with the draw at `pos` next, and the position after its last draw. */
  function PlayGame(deps: Table, stream: nat -> Draw, pos: nat): (r: (GameRecord, nat))
    requires Layered(deps)
    ensures |r.0.frames| == 10
  {
    var (fs, p) := PlayFrames(deps, stream, pos, 10);
    var (b, q) := PlayBonus(deps, fs[9].state, stream, p);
    (GameRecord(fs, b), q)
  }

  /** The scorecard entry of a frame: both counts of an open frame, the first
      count and '/' for a spare, 'X' for a strike. */
  function FrameEntry(f: FrameRecord): string {
    match f.state
    case Open => FormatInt(PinsDown(f.result1)) + " " + FormatInt(PinsDown(f.result2) - PinsDown(f.result1))
    case Spare => FormatInt(PinsDown(f.result1)) + " /"
    case Strike => "X  "
  }

  function Entries(fs: seq<FrameRecord>): (es: seq<string>)
    ensures |es| == |fs|
  {
    seq(|fs|, i requires 0 <= i < |fs| => FrameEntry(fs[i]))
  }

  /** The entry after the tenth frame, if any. */
  function BonusEntries(b: Bonus): (es: seq<string>)
    ensures |es| <= 1
    ensures |es| == 0 <==> b == NoBonus
  {
    match b
    case NoBonus => []
    case SpareBonus(r) =>
      [if PinsDown(r) == 10 then "X  " else FormatInt(PinsDown(r)) + "  "]
    case StrikeBonus(g, t) =>
      var d1 := PinsDown(g.result1);
      if g.state == Strike then
        [if PinsDown(t) == 10 then "X X" else "X " + FormatInt(PinsDown(t))]
      else
        [if PinsDown(t) == 10 then FormatInt(d1) + " /" else FormatInt(d1) + " " + FormatInt(PinsDown(t) - d1)]
  }

  function Scorecard(g: GameRecord): seq<string> {
    Entries(g.frames) + BonusEntries(g.bonus)
  }

  /** How many times a frame's pins count, by the state of the frame before it.
      The engine copies the previous state into the one before that right after
      updating it, so the two are always equal and a frame after a strike always
      counts three times. */
  function Multiplier(prev: FrameState): nat {
    match prev
    case Open => 1
    case Spare => 2
    case Strike => 3
  }

  /** The factor the engine's score update applies, by the states of the frame
      before and the frame before that: one, one more after a spare, and after a
      strike one more, or two more when the frame before that was a strike too. */
  function Gain(prev: FrameState, prevPrev: FrameState): (g: nat)
    ensures 1 <= g <= 3
    ensures g == 1 <==> prev == Open
  {
    1 + (if prev == Spare then 1 else 0) +
    (if prev == Strike then (if prevPrev == Strike then 2 else 1) else 0)
  }

  /** With the two states equal, as the engine keeps them, the factor is the
      multiplier; it would be two after a strike that follows a non-strike. */
  lemma GainWithEqualStates(prev: FrameState)
    ensures Gain(prev, prev) == Multiplier(prev)
    ensures Gain(Strike, Open) == 2 && Gain(Strike, Spare) == 2
  {
  }

  /** The points of the ten frames: each frame's pins after its last roll, times
      the multiplier of the frame before (the first frame counts once). */
  function LookbackTotal(fs: seq<FrameRecord>): int {
    if fs == [] then 0
    else
      var n := |fs|;
      var prev := if n >= 2 then fs[n - 2].state else Open;
      LookbackTotal(fs[..n - 1]) + PinsDown(fs[n - 1].result2) * Multiplier(prev)
  }

  /** The points of the bonus rolls, counted once each. */
  function BonusPoints(b: Bonus): int {
    match b
    case NoBonus => 0
    case SpareBonus(r) => PinsDown(r)
    case StrikeBonus(g, t) =>
      if g.state == Strike then PinsDown(g.result1) + PinsDown(t) else PinsDown(t)
  }

  function Total(g: GameRecord): int {
    LookbackTotal(g.frames) + BonusPoints(g.bonus)
  }

  /** `d` with the display text of frame number `number` appended: a heading,
      the first roll's grid and, unless it was a strike, the second roll's grid. */
  function AppendFrameText(d: string, number: nat, f: FrameRecord): string {
    var shown := d + "\n" + "Frame " + FormatInt(number) + "\n" + "Roll 1:\n" + StringBooleanResult(f.result1);
    if f.state != Strike then shown + "Roll 2:\n" + StringBooleanResult(f.result2) else shown
  }

  /** `d` with the display text of the frames `fs`, numbered from one, appended. */
  function AppendFramesText(d: string, fs: seq<FrameRecord>): string {
    if fs == [] then d else AppendFrameText(AppendFramesText(d, fs[..|fs| - 1]), |fs|, fs[|fs| - 1])
  }

  /** `d` with the grids of the bonus rolls appended. */
  function AppendBonusText(d: string, b: Bonus): string {
    match b
    case NoBonus => d
    case SpareBonus(r) => d + "Roll 3:\n" + StringBooleanResult(r) + "\n"
    case StrikeBonus(g, t) =>
      d + "Roll 2:\n" + StringBooleanResult(g.result1) + "Roll 3:\n" + StringBooleanResult(t) + "\n"
  }

  lemma ConcatAssoc<T>(a: seq<T>, b: seq<T>, c: seq<T>)
    ensures a + b + c == a + (b + c)
  {
  }

  /** Appending frame text does not depend on what came before. */
  lemma AppendFrameTextShift(d: string, x: string, number: nat, f: FrameRecord)
    ensures AppendFrameText(d + x, number, f) == d + AppendFrameText(x, number, f)
  {
    var a1 := x + "\n";
    var a2 := a1 + "Frame ";
    var a3 := a2 + FormatInt(number);
    var a4 := a3 + "\n";
    var a5 := a4 + "Roll 1:\n";
    var a6 := a5 + StringBooleanResult(f.result1);
    var a7 := a6 + "Roll 2:\n";
    ConcatAssoc(d, x, "\n");
    ConcatAssoc(d, a1, "Frame ");
    ConcatAssoc(d, a2, FormatInt(number));
    ConcatAssoc(d, a3, "\n");
    ConcatAssoc(d, a4, "Roll 1:\n");
    ConcatAssoc(d, a5, StringBooleanResult(f.result1));
    ConcatAssoc(d, a6, "Roll 2:\n");
    ConcatAssoc(d, a7, StringBooleanResult(f.result2));
  }

  lemma {:induction false} AppendFramesTextShift(d: string, fs: seq<FrameRecord>)
    ensures AppendFramesText(d, fs) == d + AppendFramesText("", fs)
  {
    if fs == [] {
      assert d + "" == d;
    } else {
      var n := |fs|;
      AppendFramesTextShift(d, fs[..n - 1]);
      AppendFrameTextShift(d, AppendFramesText("", fs[..n - 1]), n, fs[n - 1]);
    }
  }

  lemma AppendBonusTextShift(d: string, x: string, b: Bonus)
    ensures AppendBonusText(d + x, b) == d + AppendBonusText(x, b)
  {
    match b
    case NoBonus =>
    case SpareBonus(r) =>
      ConcatAssoc(d, x, "Roll 3:\n");
      ConcatAssoc(d, x + "Roll 3:\n", StringBooleanResult(r));
      ConcatAssoc(d, x + "Roll 3:\n" + StringBooleanResult(r), "\n");
    case StrikeBonus(g, t) =>
      var a1 := x + "Roll 2:\n";
      var a2 := a1 + StringBooleanResult(g.result1);
      var a3 := a2 + "Roll 3:\n";
      var a4 := a3 + StringBooleanResult(t);
      ConcatAssoc(d, x, "Roll 2:\n");
      ConcatAssoc(d, a1, StringBooleanResult(g.result1));
      ConcatAssoc(d, a2, "Roll 3:\n");
      ConcatAssoc(d, a3, StringBooleanResult(t));
      ConcatAssoc(d, a4, "\n");
  }

  /** The display text of a game. */
  function Display(g: GameRecord): string {
    AppendBonusText(AppendFramesText("", g.frames), g.bonus)
  }

  /** Appending a frame extends the three records by that frame's part. */
  lemma AppendFrame(fs: seq<FrameRecord>, f: FrameRecord)
    ensures Entries(fs + [f]) == Entries(fs) + [FrameEntry(f)]
    ensures LookbackTotal(fs + [f]) ==
      LookbackTotal(fs) + PinsDown(f.result2) * Multiplier(if fs == [] then Open else fs[|fs| - 1].state)
    ensures forall d :: AppendFramesText(d, fs + [f]) == AppendFrameText(AppendFramesText(d, fs), |fs| + 1, f)
  {
    assert (fs + [f])[..|fs|] == fs;
  }

  /** Ten frames followed by their bonus. */
  lemma PlayGameOf(deps: Table, stream: nat -> Draw, pos: nat, fs: seq<FrameRecord>, p: nat)
    requires Layered(deps)
    requires PlayFrames(deps, stream, pos, 10) == (fs, p)
    ensures PlayGame(deps, stream, pos) == (GameRecord(fs, PlayBonus(deps, fs[9].state, stream, p).0),
                                            PlayBonus(deps, fs[9].state, stream, p).1)
  {
  }

  /** The bonus after a spare, from the roll it takes. */
  lemma PlayBonusSpare(deps: Table, stream: nat -> Draw, pos: nat, r: Rack, p: nat)
    requires Layered(deps) && Rolled(deps, ALL_STANDING, stream, pos) == (r, p)
    ensures PlayBonus(deps, Spare, stream, pos) == (SpareBonus(r), p)
  {
  }

  /** The bonus after a strike whose extra frame is a strike, from that frame
      and the roll after it. */
  lemma PlayBonusStrikes(deps: Table, stream: nat -> Draw, pos: nat, g: FrameRecord, p: nat, t: Rack, q: nat)
    requires Layered(deps) && PlayFrame(deps, stream, pos) == (g, p) && g.state == Strike
    requires Rolled(deps, ALL_STANDING, stream, p) == (t, q)
    ensures PlayBonus(deps, Strike, stream, pos) == (StrikeBonus(g, t), q)
  {
  }

  /** The bonus after a strike whose extra frame is not a strike. */
  lemma PlayBonusNoStrike(deps: Table, stream: nat -> Draw, pos: nat, g: FrameRecord, p: nat)
    requires Layered(deps) && PlayFrame(deps, stream, pos) == (g, p) && g.state != Strike
    ensures PlayBonus(deps, Strike, stream, pos) == (StrikeBonus(g, g.result2), p)
  {
  }

  /** The engine's game (engine.py:118-229). */
  class Game {
    var scorecard: seq<string>
    var display: string
    var totalscore: int

    constructor ()
      ensures scorecard == [] && display == "" && totalscore == 0
    {
      scorecard := [];
      display := "";
      totalscore := 0;
    }

    /** Plays ten frames and the bonus rolls, appending to the scorecard and
        the display and adding to the total what `PlayGame` describes. */
    method RunGame(rng: Random)
      modifies this, rng
      ensures var r := PlayGame(DEPENDENCIES, rng.stream, old(rng.pos));
        scorecard == old(scorecard) + Scorecard(r.0) &&
        totalscore == old(totalscore) + Total(r.0) &&
        display == old(display) + Display(r.0) &&
        rng.pos == r.1
    {
      DependenciesLayered();
      ghost var start := rng.pos;
      ghost var frames: seq<FrameRecord> := [];
      var prevState := Open;
      var prevPrevState := Open;
      for i := 0 to 10
        invariant (frames, rng.pos) == PlayFrames(DEPENDENCIES, rng.stream, start, i)
        invariant scorecard == old(scorecard) + Entries(frames)
        invariant totalscore == old(totalscore) + LookbackTotal(frames)
        invariant display == AppendFramesText(old(display), frames)
        invariant prevState == if i == 0 then Open else frames[i - 1].state
        invariant prevPrevState == prevState
      {
        var frame := SimulateNewFrame(rng);
        var newState := frame.state;
        RecordFrame(i + 1, frame, prevState, prevPrevState);
        GainWithEqualStates(prevState);
        ghost var f := frame;
        AppendFrame(frames, f);
        ConcatAssoc(old(scorecard), Entries(frames), [FrameEntry(f)]);
        frames := frames + [f];
        prevState := newState;
        prevPrevState := prevState;
      }
      ghost var afterFrames := rng.pos;
      PlayGameOf(DEPENDENCIES, rng.stream, start, frames, afterFrames);
      ghost var bonus := PlayBonus(DEPENDENCIES, frames[9].state, rng.stream, afterFrames).0;
      ConcatAssoc(old(scorecard), Entries(frames), BonusEntries(bonus));
      BonusRolls(prevState, rng);
      AppendFramesTextShift(old(display), frames);
      AppendBonusTextShift(old(display), AppendFramesText("", frames), bonus);
    }

    /** The three updates after a frame is played: its entry on the
        scorecard, its pins in the total, its grids in the display
        (engine.py:145-170). */
    method RecordFrame(number: nat, frame: FrameRecord, prevState: FrameState, prevPrevState: FrameState)
      modifies this
      ensures scorecard == old(scorecard) + [FrameEntry(frame)]
      ensures totalscore == old(totalscore) + PinsDown(frame.result2) * Gain(prevState, prevPrevState)
      ensures display == AppendFrameText(old(display), number, frame)
    {
      AddToScorecard(frame.state, frame.result1, frame.result2);
      AddToTotal(PinsDown(frame.result2), prevState, prevPrevState);
      AddToDisplay(number, frame.state, frame.result1, frame.result2);
    }

    /** Appends a frame's entry to the scorecard (engine.py:145-151). */
    method AddToScorecard(newState: FrameState, result1: Rack, result2: Rack)
      modifies this
      ensures scorecard == old(scorecard) + [FrameEntry(FrameRecord(newState, result1, result2))]
      ensures totalscore == old(totalscore) && display == old(display)
    {
      if newState == Open {
        scorecard := scorecard + [FormatInt(PinsDown(result1)) + " " + FormatInt(PinsDown(result2) - PinsDown(result1))];
      } else if newState == Spare {
        scorecard := scorecard + [FormatInt(PinsDown(result1)) + " /"];
      } else if newState == Strike {
        scorecard := scorecard + ["X  "];
      }
    }

    /** Adds a frame's pins to the total, once more after a spare and twice
        more after a strike preceded by a strike (engine.py:153-161). */
    method AddToTotal(score: nat, prevState: FrameState, prevPrevState: FrameState)
      modifies this
      ensures totalscore == old(totalscore) + score * Gain(prevState, prevPrevState)
      ensures scorecard == old(scorecard) && display == old(display)
    {
      totalscore := totalscore + score;
      if prevState == Spare {
        totalscore := totalscore + score;
      }
      if prevState == Strike {
        if prevPrevState == Strike {
          totalscore := totalscore + score;
        }
        totalscore := totalscore + score;
      }
    }

    /** Appends a frame's heading and grids to the display (engine.py:163-170). */
    method AddToDisplay(number: nat, state: FrameState, result1: Rack, result2: Rack)
      modifies this
      ensures display == AppendFrameText(old(display), number, FrameRecord(state, result1, result2))
      ensures scorecard == old(scorecard) && totalscore == old(totalscore)
    {
      display := display + "\n";
      display := display + "Frame " + FormatInt(number) + "\n";
      display := display + "Roll 1:\n";
      display := display + StringBooleanResult(result1);
      if state != Strike {
        display := display + "Roll 2:\n";
        display := display + StringBooleanResult(result2);
      }
    }

    /** The rolls after the tenth frame, by how it ended (engine.py:175-229). */
    method BonusRolls(prevState: FrameState, rng: Random)
      modifies this, rng
      ensures var r := PlayBonus(DEPENDENCIES, prevState, rng.stream, old(rng.pos));
        scorecard == old(scorecard) + BonusEntries(r.0) &&
        totalscore == old(totalscore) + BonusPoints(r.0) &&
        display == AppendBonusText(old(display), r.0) &&
        rng.pos == r.1
    {
      DependenciesLayered();
      if prevState == Spare {
        SpareBonusRoll(rng);
      } else if prevState == Strike {
        StrikeBonusRolls(rng);
      } else {
        assert scorecard + [] == scorecard;
      }
    }

    /** The roll after a spare in the tenth frame (engine.py:175-191). */
    method SpareBonusRoll(rng: Random)
      modifies this, rng
      ensures var r := PlayBonus(DEPENDENCIES, Spare, rng.stream, old(rng.pos));
        scorecard == old(scorecard) + BonusEntries(r.0) &&
        totalscore == old(totalscore) + BonusPoints(r.0) &&
        display == AppendBonusText(old(display), r.0) &&
        rng.pos == r.1
    {
      DependenciesLayered();
      ghost var start := rng.pos;
      var result := FreshRoll(rng);
      PlayBonusSpare(DEPENDENCIES, rng.stream, start, result, rng.pos);
      if PinsDown(result) == 10 {
        scorecard := scorecard + ["X  "];
      } else {
        scorecard := scorecard + [FormatInt(PinsDown(result)) + "  "];
      }
      totalscore := totalscore + PinsDown(result);
      display := display + "Roll 3:\n";
      display := display + StringBooleanResult(result);
      display := display + "\n";
    }

    /** The two rolls after a strike in the tenth frame: a frame, and when
        that frame is a strike one more roll on fresh pins (engine.py:193-229). */
    method StrikeBonusRolls(rng: Random)
      modifies this, rng
      ensures var r := PlayBonus(DEPENDENCIES, Strike, rng.stream, old(rng.pos));
        scorecard == old(scorecard) + BonusEntries(r.0) &&
        totalscore == old(totalscore) + BonusPoints(r.0) &&
        display == AppendBonusText(old(display), r.0) &&
        rng.pos == r.1
    {
      DependenciesLayered();
      ghost var start := rng.pos;
      var extra := SimulateNewFrame(rng);
      var result2 := extra.result2;
      ghost var middle := rng.pos;
      if extra.state == Strike {
        result2 := FreshRoll(rng);
        PlayBonusStrikes(DEPENDENCIES, rng.stream, start, extra, middle, result2, rng.pos);
      } else {
        PlayBonusNoStrike(DEPENDENCIES, rng.stream, start, extra, middle);
      }
      var bonus := StrikeBonus(extra, result2);
      ScoreStrikeBonus(bonus);
      ShowStrikeBonus(bonus);
    }

    /** The scorecard entry and the points of the two rolls after a strike in
        the tenth frame (engine.py:201-219). */
    method ScoreStrikeBonus(bonus: Bonus)
      requires bonus.StrikeBonus?
      modifies this
      ensures scorecard == old(scorecard) + BonusEntries(bonus)
      ensures totalscore == old(totalscore) + BonusPoints(bonus)
      ensures display == old(display)
    {
      var result1 := bonus.extra.result1;
      var result2 := bonus.third;
      if bonus.extra.state == Strike {
        if PinsDown(result2) == 10 {
          scorecard := scorecard + ["X X"];
        } else {
          scorecard := scorecard + ["X " + FormatInt(PinsDown(result2))];
        }
        totalscore := totalscore + PinsDown(result1);
        totalscore := totalscore + PinsDown(result2);
      } else {
        if PinsDown(result2) == 10 {
          scorecard := scorecard + [FormatInt(PinsDown(result1)) + " /"];
        } else {
          scorecard := scorecard + [FormatInt(PinsDown(result1)) + " " + FormatInt(PinsDown(result2) - PinsDown(result1))];
        }
        totalscore := totalscore + PinsDown(result2);
      }
    }

    /** The grids of the two rolls after a strike in the tenth frame
        (engine.py:224-229). */
    method ShowStrikeBonus(bonus: Bonus)
      requires bonus.StrikeBonus?
      modifies this
      ensures display == AppendBonusText(old(display), bonus)
      ensures scorecard == old(scorecard) && totalscore == old(totalscore)
    {
      display := display + "Roll 2:\n";
      display := display + StringBooleanResult(bonus.extra.result1);
      display := display + "Roll 3:\n";
      display := display + StringBooleanResult(bonus.third);
      display := display + "\n";
    }
  }
}
