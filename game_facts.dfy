/** Properties of a played game: the shape of the scorecard, what each entry
    shows, the range of the total, and the two extreme games. */
module GameFacts {
  import opened Draws
  import opened Text
  import opened Pins
  import opened PinFacts
  import opened Frames
  import opened Games

  /** Appending a well-formed frame to well-formed frames keeps them well formed. */
  lemma AppendWellFormed(fs: seq<FrameRecord>, f: FrameRecord)
    requires forall i :: 0 <= i < |fs| ==> WellFormed(fs[i])
    requires WellFormed(f)
    ensures forall i :: 0 <= i < |fs| + 1 ==> WellFormed((fs + [f])[i])
  {
    forall i | 0 <= i < |fs| + 1
      ensures WellFormed((fs + [f])[i])
    {
      if i < |fs| {
        assert (fs + [f])[i] == fs[i];
      }
    }
  }

  /** Every frame of a run of frames is classified as the engine promises. */
  lemma {:induction false} PlayFramesWellFormed(deps: Table, stream: nat -> Draw, pos: nat, n: nat)
    requires Layered(deps)
    ensures forall i :: 0 <= i < n ==> WellFormed(PlayFrames(deps, stream, pos, n).0[i])
  {
    if n > 0 {
      var prefix := PlayFrames(deps, stream, pos, n - 1);
      PlayFramesWellFormed(deps, stream, pos, n - 1);
      FrameClassified(deps, stream, prefix.1);
      var f := PlayFrame(deps, stream, prefix.1).0;
      assert PlayFrames(deps, stream, pos, n).0 == prefix.0 + [f];
      AppendWellFormed(prefix.0, f);
    }
  }

  /** What the bonus following a tenth frame that ended in `last` looks like. */
  ghost predicate BonusFits(last: FrameState, b: Bonus) {
    match b
    case NoBonus => last == Open
    case SpareBonus(_) => last == Spare
    case StrikeBonus(g, t) => last == Strike && WellFormed(g) && (g.state != Strike ==> t == g.result2)
  }

  lemma PlayBonusFits(deps: Table, last: FrameState, stream: nat -> Draw, pos: nat)
    requires Layered(deps)
    ensures BonusFits(last, PlayBonus(deps, last, stream, pos).0)
  {
    if last == Strike {
      FrameClassified(deps, stream, pos);
    }
  }

  /** A played game: ten well-formed frames and the bonus that fits the tenth. */
  ghost predicate Played(g: GameRecord) {
    |g.frames| == 10 &&
    (forall i :: 0 <= i < 10 ==> WellFormed(g.frames[i])) &&
    BonusFits(g.frames[9].state, g.bonus)
  }

  lemma PlayGamePlayed(deps: Table, stream: nat -> Draw, pos: nat)
    requires Layered(deps)
    ensures Played(PlayGame(deps, stream, pos).0)
  {
    var (fs, p) := PlayFrames(deps, stream, pos, 10);
    PlayFramesWellFormed(deps, stream, pos, 10);
    PlayBonusFits(deps, fs[9].state, stream, p);
  }

  /** The scorecard has an entry per frame, and an eleventh exactly when the
      tenth frame was a spare or a strike. */
  lemma ScorecardShape(g: GameRecord)
    requires Played(g)
    ensures |Scorecard(g)| == 10 || |Scorecard(g)| == 11
    ensures |Scorecard(g)| == 11 <==> g.frames[9].state != Open
    ensures forall i :: 0 <= i < 10 ==> Scorecard(g)[i] == FrameEntry(g.frames[i])
  {
  }

  /** A count of at most nine pins is written as one digit. */
  lemma SingleDigit(n: int)
    requires 0 <= n < 10
    ensures FormatInt(n) == [DigitChar(n)]
  {
  }

  /** The state an entry shows: 'X' first for a strike, '/' last for a spare. */
  function EntryState(e: string): FrameState {
    if 0 < |e| && e[0] == 'X' then Strike
    else if 0 < |e| && e[|e| - 1] == '/' then Spare
    else Open
  }

  /** The pins an entry shows: ten for a strike or a spare, else the two digits. */
  function EntryPins(e: string): int
    requires |e| == 3
  {
    match EntryState(e)
    case Strike => 10
    case Spare => 10
    case Open => DigitValue(e[0]) + DigitValue(e[2])
  }

  /** Every frame entry is three characters wide and can be read back: it shows
      the frame's state, the first count of a frame that was not a strike, and
      in all the pins the frame scored. */
  lemma FrameEntryRead(f: FrameRecord)
    requires WellFormed(f)
    ensures |FrameEntry(f)| == 3
    ensures EntryState(FrameEntry(f)) == f.state
    ensures f.state != Strike ==> DigitValue(FrameEntry(f)[0]) == PinsDown(f.result1)
    ensures EntryPins(FrameEntry(f)) == PinsDown(f.result2)
  {
    var d1 := PinsDown(f.result1);
    var d2 := PinsDown(f.result2);
    PinsDownMonotone(f.result1, f.result2);
    if f.state != Strike {
      SingleDigit(d1);
    }
    if f.state == Open {
      SingleDigit(d2 - d1);
    }
  }

  /** The eleventh entry is three characters wide too. */
  lemma BonusEntryWidth(last: FrameState, b: Bonus)
    requires BonusFits(last, b)
    ensures forall e :: e in BonusEntries(b) ==> |e| == 3
  {
    match b
    case NoBonus =>
    case SpareBonus(r) =>
      if PinsDown(r) != 10 {
        SingleDigit(PinsDown(r));
      }
    case StrikeBonus(g, t) =>
      if g.state == Strike {
        if PinsDown(t) != 10 {
          SingleDigit(PinsDown(t));
        }
      } else {
        FrameEntryRead(g);
      }
  }

  /** Every entry of the scorecard is three characters wide. */
  lemma ScorecardWidth(g: GameRecord)
    requires Played(g)
    ensures forall i :: 0 <= i < |Scorecard(g)| ==> |Scorecard(g)[i]| == 3
  {
    forall i | 0 <= i < 10 {
      FrameEntryRead(g.frames[i]);
    }
    BonusEntryWidth(g.frames[9].state, g.bonus);
    if |Scorecard(g)| == 11 {
      assert Scorecard(g)[10] in BonusEntries(g.bonus);
    }
  }

  /** One frame's points: at most thirty, and thirty only for ten pins after a strike. */
  lemma FramePoints(p: nat, prev: FrameState)
    requires p <= 10
    ensures 0 <= p * Multiplier(prev) <= 30
    ensures p * Multiplier(prev) == 30 <==> p == 10 && prev == Strike
  {
    match prev
    case Open =>
    case Spare =>
    case Strike =>
  }

  /** The points of `n` frames are at most 10 + 30 (n - 1). */
  lemma {:induction false} LookbackBound(fs: seq<FrameRecord>)
    requires fs != []
    ensures 0 <= LookbackTotal(fs) <= 30 * |fs| - 20
  {
    var n := |fs|;
    if n > 1 {
      LookbackBound(fs[..n - 1]);
      FramePoints(PinsDown(fs[n - 1].result2), fs[n - 2].state);
    }
  }

  /** The bound is reached exactly when every frame downs all ten pins and every
      frame but the last is a strike. */
  lemma {:induction false} LookbackMaximum(fs: seq<FrameRecord>)
    requires fs != []
    ensures LookbackTotal(fs) == 30 * |fs| - 20 <==>
      (forall i :: 0 <= i < |fs| ==> PinsDown(fs[i].result2) == 10) &&
      (forall i :: 0 <= i < |fs| - 1 ==> fs[i].state == Strike)
  {
    var n := |fs|;
    if n > 1 {
      var init := fs[..n - 1];
      LookbackMaximum(init);
      LookbackBound(init);
      FramePoints(PinsDown(fs[n - 1].result2), fs[n - 2].state);
      assert forall i :: 0 <= i < n - 1 ==> init[i] == fs[i];
    }
  }

  lemma BonusBound(b: Bonus)
    ensures 0 <= BonusPoints(b) <= 20
    ensures BonusPoints(b) == 20 <==>
      b.StrikeBonus? && b.extra.state == Strike && PinsDown(b.extra.result1) == 10 && PinsDown(b.third) == 10
  {
    match b
    case NoBonus =>
    case SpareBonus(r) =>
    case StrikeBonus(g, t) =>
  }

  /** A perfect game: ten strikes, then a strike in each bonus roll. */
  ghost predicate Perfect(g: GameRecord) {
    |g.frames| == 10 &&
    (forall i :: 0 <= i < 10 ==> g.frames[i].state == Strike) &&
    g.bonus.StrikeBonus? && g.bonus.extra.state == Strike && g.bonus.third == ALL_DOWN
  }

  /** The total of any game lies between 0 and 300. */
  lemma TotalRange(g: GameRecord)
    requires |g.frames| == 10
    ensures 0 <= Total(g) <= 300
  {
    LookbackBound(g.frames);
    BonusBound(g.bonus);
  }

  /** A perfect played game totals 300. */
  lemma PerfectScoresMaximum(g: GameRecord)
    requires Played(g) && Perfect(g)
    ensures Total(g) == 300
  {
    LookbackMaximum(g.frames);
    ExtremeCounts();
    BonusBound(g.bonus);
  }

  /** A played game that totals 300 is perfect. */
  lemma MaximumIsPerfect(g: GameRecord)
    requires Played(g) && Total(g) == 300
    ensures Perfect(g)
  {
    LookbackBound(g.frames);
    LookbackMaximum(g.frames);
    BonusBound(g.bonus);
    RackExtremes(g.bonus.third);
  }

  /** A played game totals 300 exactly when it is perfect. */
  lemma PerfectIffMaximum(g: GameRecord)
    requires Played(g)
    ensures Total(g) == 300 <==> Perfect(g)
  {
    if Perfect(g) {
      PerfectScoresMaximum(g);
    }
    if Total(g) == 300 {
      MaximumIsPerfect(g);
    }
  }

  const STRIKE_FRAME: FrameRecord := FrameRecord(Strike, ALL_DOWN, ALL_DOWN)
  const GUTTER_FRAME: FrameRecord := FrameRecord(Open, ALL_STANDING, ALL_STANDING)

  /** A frame that comes out as `x` after `c` draws wherever it starts does so at `q`. */
  lemma FrameAt(deps: Table, stream: nat -> Draw, q: nat, x: FrameRecord, c: nat)
    requires Layered(deps)
    requires forall p: nat :: PlayFrame(deps, stream, p) == (x, p + c)
    ensures PlayFrame(deps, stream, q) == (x, q + c)
  {
  }

  /** One more frame that comes out as `x` after `c` draws. */
  lemma FramesRepeatStep(deps: Table, stream: nat -> Draw, pos: nat, n: nat, x: FrameRecord, c: nat)
    requires Layered(deps) && n > 0
    requires forall p: nat :: PlayFrame(deps, stream, p) == (x, p + c)
    ensures PlayFrames(deps, stream, pos, n).0 == PlayFrames(deps, stream, pos, n - 1).0 + [x]
    ensures PlayFrames(deps, stream, pos, n).1 == PlayFrames(deps, stream, pos, n - 1).1 + c
  {
    FrameAt(deps, stream, PlayFrames(deps, stream, pos, n - 1).1, x, c);
  }

  /** When every frame comes out as `x` after `c` draws, a run of `n` frames
      ends `c` draws per frame later. */
  lemma {:induction false} FramesRepeatDraws(deps: Table, stream: nat -> Draw, pos: nat, n: nat, x: FrameRecord, c: nat)
    requires Layered(deps)
    requires forall p: nat :: PlayFrame(deps, stream, p) == (x, p + c)
    ensures PlayFrames(deps, stream, pos, n).1 == pos + c * n
  {
    if n > 0 {
      FramesRepeatStep(deps, stream, pos, n, x, c);
      FramesRepeatDraws(deps, stream, pos, n - 1, x, c);
      assert c * n == c * (n - 1) + c;
    }
  }

  /** When every frame played takes `c` draws and comes out as `x`, a run
      of `n` frames is `n` copies of `x` and takes `c` draws per frame. */
  lemma {:induction false} FramesRepeat(deps: Table, stream: nat -> Draw, pos: nat, n: nat, x: FrameRecord, c: nat)
    requires Layered(deps)
    requires forall p: nat :: PlayFrame(deps, stream, p) == (x, p + c)
    ensures forall i :: 0 <= i < n ==> PlayFrames(deps, stream, pos, n).0[i] == x
    ensures PlayFrames(deps, stream, pos, n).1 == pos + c * n
  {
    if n > 0 {
      FramesRepeatStep(deps, stream, pos, n, x, c);
      FramesRepeat(deps, stream, pos, n - 1, x, c);
    }
    FramesRepeatDraws(deps, stream, pos, n, x, c);
  }

  lemma {:induction false} LookbackOfStrikes(n: nat)
    requires n > 0
    ensures LookbackTotal(seq(n, _ => STRIKE_FRAME)) == 30 * n - 20
  {
    ExtremeCounts();
    if n > 1 {
      LookbackOfStrikes(n - 1);
      assert seq(n, _ => STRIKE_FRAME)[..n - 1] == seq(n - 1, _ => STRIKE_FRAME);
    }
  }

  lemma {:induction false} LookbackOfGutters(n: nat)
    ensures LookbackTotal(seq(n, _ => GUTTER_FRAME)) == 0
  {
    ExtremeCounts();
    if n > 0 {
      LookbackOfGutters(n - 1);
      assert seq(n, _ => GUTTER_FRAME)[..n - 1] == seq(n - 1, _ => GUTTER_FRAME);
    }
  }

  /** Ten strikes in a row when every draw is below SKILL. */
  lemma PerfectFrames(deps: Table, stream: nat -> Draw, pos: nat)
    requires Layered(deps)
    requires forall k :: stream(k) < SKILL
    ensures PlayFrames(deps, stream, pos, 10).0 == seq(10, _ => STRIKE_FRAME)
    ensures PlayFrames(deps, stream, pos, 10).1 == pos + 100
  {
    forall p: nat
      ensures PlayFrame(deps, stream, p) == (STRIKE_FRAME, p + 10)
    {
      FrameAllFall(deps, stream, p);
    }
    FramesRepeat(deps, stream, pos, 10, STRIKE_FRAME, 10);
  }

  /** After a tenth-frame strike, two more strikes when every draw is below SKILL. */
  lemma PerfectBonus(deps: Table, stream: nat -> Draw, pos: nat)
    requires Layered(deps)
    requires forall k :: stream(k) < SKILL
    ensures PlayBonus(deps, Strike, stream, pos) == (StrikeBonus(STRIKE_FRAME, ALL_DOWN), pos + 20)
  {
    FrameAllFall(deps, stream, pos);
    FreshRollAllFall(deps, stream, pos + 10);
    PlayBonusStrikes(deps, stream, pos, STRIKE_FRAME, pos + 10, ALL_DOWN, pos + 20);
  }

  /** The perfect game's record scores 300 and is written as ten "X  "
      entries and a final "X X". */
  lemma PerfectRecord()
    ensures var g := GameRecord(seq(10, _ => STRIKE_FRAME), StrikeBonus(STRIKE_FRAME, ALL_DOWN));
      Total(g) == 300 && Scorecard(g) == seq(10, _ => "X  ") + ["X X"]
  {
    ExtremeCounts();
    LookbackOfStrikes(10);
  }

  /** When every draw is below SKILL the game is perfect: twelve strikes, a
      total of 300 and a scorecard of ten "X  " entries and a final "X X",
      after 120 draws. */
  lemma PerfectGame(deps: Table, stream: nat -> Draw, pos: nat)
    requires Layered(deps)
    requires forall k :: stream(k) < SKILL
    ensures var r := PlayGame(deps, stream, pos);
      r.0 == GameRecord(seq(10, _ => STRIKE_FRAME), StrikeBonus(STRIKE_FRAME, ALL_DOWN)) &&
      Total(r.0) == 300 &&
      Scorecard(r.0) == seq(10, _ => "X  ") + ["X X"] &&
      r.1 == pos + 120
  {
    PerfectFrames(deps, stream, pos);
    PerfectBonus(deps, stream, pos + 100);
    PlayGameOf(deps, stream, pos, seq(10, _ => STRIKE_FRAME), pos + 100);
    PerfectRecord();
  }

  /** Ten open frames with no pin down when no draw is below SKILL. */
  lemma GutterFrames(deps: Table, stream: nat -> Draw, pos: nat)
    requires Layered(deps)
    requires forall k :: stream(k) >= SKILL
    ensures PlayFrames(deps, stream, pos, 10).0 == seq(10, _ => GUTTER_FRAME)
    ensures PlayFrames(deps, stream, pos, 10).1 == pos + 200
  {
    forall p: nat
      ensures PlayFrame(deps, stream, p) == (GUTTER_FRAME, p + 20)
    {
      FrameNoneFall(deps, stream, p);
    }
    FramesRepeat(deps, stream, pos, 10, GUTTER_FRAME, 20);
  }

  /** The gutter game's record scores 0 and is written as ten "0 0" entries. */
  lemma GutterRecord()
    ensures var g := GameRecord(seq(10, _ => GUTTER_FRAME), NoBonus);
      Total(g) == 0 && Scorecard(g) == seq(10, _ => "0 0")
  {
    ExtremeCounts();
    assert FrameEntry(GUTTER_FRAME) == "0 0";
    LookbackOfGutters(10);
    assert Entries(seq(10, _ => GUTTER_FRAME)) + [] == Entries(seq(10, _ => GUTTER_FRAME));
  }

  /** When no draw is below SKILL no pin ever falls: ten open frames written
      "0 0", no bonus roll, a total of 0, after 200 draws. */
  lemma GutterGame(deps: Table, stream: nat -> Draw, pos: nat)
    requires Layered(deps)
    requires forall k :: stream(k) >= SKILL
    ensures var r := PlayGame(deps, stream, pos);
      r.0 == GameRecord(seq(10, _ => GUTTER_FRAME), NoBonus) &&
      Total(r.0) == 0 &&
      Scorecard(r.0) == seq(10, _ => "0 0") &&
      r.1 == pos + 200
  {
    GutterFrames(deps, stream, pos);
    PlayGameOf(deps, stream, pos, seq(10, _ => GUTTER_FRAME), pos + 200);
    GutterRecord();
  }
}
