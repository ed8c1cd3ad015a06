/** A frame: one or two rolls on a fresh set of pins (engine.py:82-114).
    `PlayFrame` is the value-level description that `Frame.SimulateFrame`
    is proved against. */
module Frames {
  import opened Draws
  import opened Pins
  import opened PinFacts

  /** How a frame ended (engine.py:83-86). */
  datatype FrameState = Open | Spare | Strike

  datatype Option<T> = None | Some(value: T)

  /** A finished frame: its state and the racks after the first and the
      second roll; after a strike the second rack is the first. */
  datatype FrameRecord = FrameRecord(state: FrameState, result1: Rack, result2: Rack)

  /** A frame played on a fresh rack, with the draw at `pos` next: a first
      roll, and unless it downs all ten pins a second roll on the same pins.
      Returns the frame and the position of the next unused draw. */
  function PlayFrame(deps: Table, stream: nat -> Draw, pos: nat): (FrameRecord, nat)
    requires Layered(deps)
  {
    var (r1, p1) := Rolled(deps, ALL_STANDING, stream, pos);
    if PinsDown(r1) == 10 then (FrameRecord(Strike, r1, r1), p1)
    else
      var (r2, p2) := Rolled(deps, r1, stream, p1);
      (FrameRecord(if PinsDown(r2) == 10 then Spare else Open, r1, r2), p2)
  }

  /** A frame whose first roll downs all ten pins. */
  lemma PlayFrameStrike(deps: Table, stream: nat -> Draw, pos: nat, r1: Rack, p1: nat)
    requires Layered(deps)
    requires Rolled(deps, ALL_STANDING, stream, pos) == (r1, p1) && PinsDown(r1) == 10
    ensures PlayFrame(deps, stream, pos) == (FrameRecord(Strike, r1, r1), p1)
  {
  }

  /** A frame whose first roll leaves a pin standing. */
  lemma PlayFrameTwoRolls(deps: Table, stream: nat -> Draw, pos: nat, r1: Rack, p1: nat, r2: Rack, p2: nat)
    requires Layered(deps)
    requires Rolled(deps, ALL_STANDING, stream, pos) == (r1, p1) && PinsDown(r1) != 10
    requires Rolled(deps, r1, stream, p1) == (r2, p2)
    ensures PlayFrame(deps, stream, pos) ==
      (FrameRecord(if PinsDown(r2) == 10 then Spare else Open, r1, r2), p2)
  {
  }

  /** What a frame promises about its state and racks: a strike is ten pins on
      the first roll, a spare ten pins on the second only, an open frame fewer
      than ten after both; the second roll keeps every pin of the first down. */
  ghost predicate WellFormed(f: FrameRecord) {
    (f.state == Strike <==> PinsDown(f.result1) == 10) &&
    (f.state == Strike ==> f.result2 == f.result1) &&
    (f.state == Spare <==> PinsDown(f.result1) < 10 && PinsDown(f.result2) == 10) &&
    (f.state == Open <==> PinsDown(f.result2) < 10) &&
    (forall k :: 0 <= k < 10 && f.result1[k] ==> f.result2[k])
  }

  /** Every frame is classified as the engine promises, and it takes ten draws
      for the first roll plus one per pin left standing for the second. */
  lemma FrameClassified(deps: Table, stream: nat -> Draw, pos: nat)
    requires Layered(deps)
    ensures var (f, next) := PlayFrame(deps, stream, pos);
      WellFormed(f) &&
      next == pos + 10 + (if f.state == Strike then 0 else 10 - PinsDown(f.result1))
  {
    var (r1, p1) := Rolled(deps, ALL_STANDING, stream, pos);
    RollMeetsOutcome(deps, ALL_STANDING, stream, pos);
    PinsDownExtremes(ALL_STANDING);
    if PinsDown(r1) != 10 {
      RollMonotone(deps, r1, stream, p1);
      RollMeetsOutcome(deps, r1, stream, p1);
    }
  }

  /** When every draw is below SKILL each frame is a strike. */
  lemma FrameAllFall(deps: Table, stream: nat -> Draw, pos: nat)
    requires Layered(deps)
    requires forall n :: stream(n) < SKILL
    ensures PlayFrame(deps, stream, pos) == (FrameRecord(Strike, ALL_DOWN, ALL_DOWN), pos + 10)
  {
    FreshRollAllFall(deps, stream, pos);
    ExtremeCounts();
  }

  /** When no draw is below SKILL each frame is open with no pin down. */
  lemma FrameNoneFall(deps: Table, stream: nat -> Draw, pos: nat)
    requires Layered(deps)
    requires forall n :: stream(n) >= SKILL
    ensures PlayFrame(deps, stream, pos) == (FrameRecord(Open, ALL_STANDING, ALL_STANDING), pos + 20)
  {
    ExtremeCounts();
    RollNoneFall(deps, ALL_STANDING, stream, pos);
    var (r1, p1) := Rolled(deps, ALL_STANDING, stream, pos);
    assert r1 == ALL_STANDING && p1 == pos + 10;
    RollNoneFall(deps, r1, stream, p1);
    var (r2, p2) := Rolled(deps, r1, stream, p1);
    assert r2 == ALL_STANDING && p2 == pos + 20;
  }

  /** A frame of the engine (engine.py:89-114). */
  class Frame {
    var state: Option<FrameState>
    var result1: Rack
    var result2: Option<Rack>

    constructor ()
      ensures state == None && result1 == ALL_STANDING && result2 == None
    {
      state := None;
      result1 := ALL_STANDING;
      result2 := None;
    }

    /** Rolls on a fresh set of pins, a second time unless all ten fell, and
        records and returns the state: the frame `PlayFrame` describes. */
    method SimulateFrame(rng: Random) returns (s: FrameState)
      modifies this, rng
      ensures state == Some(s) && result2.Some?
      ensures PlayFrame(DEPENDENCIES, rng.stream, old(rng.pos)) ==
        (FrameRecord(s, result1, result2.value), rng.pos)
    {
      DependenciesLayered();
      ghost var start := rng.pos;
      var pinset := new PinSet();
      var r1: Rack := pinset.Roll(rng);
      ghost var middle := rng.pos;
      if PinsDown(r1) == 10 {
        PlayFrameStrike(DEPENDENCIES, rng.stream, start, r1, middle);
        result1 := r1;
        state := Some(Strike);
        result2 := Some(r1);
        return Strike;
      }
      var r2: Rack := pinset.Roll(rng);
      PlayFrameTwoRolls(DEPENDENCIES, rng.stream, start, r1, middle, r2, rng.pos);
      result1 := r1;
      result2 := Some(r2);
      if PinsDown(r2) == 10 {
        state := Some(Spare);
        return Spare;
      }
      state := Some(Open);
      return Open;
    }
  }

  /** `frame = Frame(); frame.simulateFrame()`, followed by reading back the
      frame's state and racks. */
  method SimulateNewFrame(rng: Random) returns (f: FrameRecord)
    modifies rng
    ensures PlayFrame(DEPENDENCIES, rng.stream, old(rng.pos)) == (f, rng.pos)
  {
    var frame := new Frame();
    var state := frame.SimulateFrame(rng);
    f := FrameRecord(state, frame.result1, frame.result2.value);
  }
}
