/** Properties of the knockdown rule, of a roll and of the pin grid. */
module PinFacts {
  import opened Draws
  import opened Pins

  function Pow3(k: nat): nat {
    if k == 0 then 1 else 3 * Pow3(k - 1)
  }

  /** The chance `Pin.knock` computes is SKILL / 3^k for k standing supporters. */
  lemma {:induction false} ThresholdClosedForm(k: nat)
    ensures Pow3(k) > 0 && Threshold(k) == SKILL / (Pow3(k) as real)
  {
    if k > 0 {
      ThresholdClosedForm(k - 1);
      var p := Pow3(k - 1) as real;
      assert (SKILL / p) / 3.0 == SKILL / (3.0 * p);
    }
  }

  /** Every chance is positive, at most SKILL, and each standing supporter lowers it. */
  lemma {:induction false} ThresholdRange(k: nat)
    ensures 0.0 < Threshold(k) <= SKILL
    ensures Threshold(k + 1) < Threshold(k)
  {
    if k > 0 {
      ThresholdRange(k - 1);
    }
  }

  /** Pin 0 rests on nothing, so it always falls with chance exactly SKILL. */
  lemma HeadPinChance(s: Rack)
    ensures Threshold(Standing(s, DEPENDENCIES[0])) == SKILL
  {
  }

  /** A rack that is down wherever another is has at least as many pins down. */
  lemma {:induction false} PinsDownMonotone(a: seq<bool>, b: seq<bool>)
    requires |a| == |b| && forall k :: 0 <= k < |a| && a[k] ==> b[k]
    ensures PinsDown(a) <= PinsDown(b)
    ensures PinsDown(a) == PinsDown(b) ==> a == b
  {
    if a != [] {
      PinsDownMonotone(a[1..], b[1..]);
      if PinsDown(a) == PinsDown(b) {
        assert a == [a[0]] + a[1..] && b == [b[0]] + b[1..];
      }
    }
  }

  /** All pins are down exactly when the count is the length; none exactly when it is zero. */
  lemma {:induction false} PinsDownExtremes(s: seq<bool>)
    ensures PinsDown(s) == |s| <==> forall k :: 0 <= k < |s| ==> s[k]
    ensures PinsDown(s) == 0 <==> forall k :: 0 <= k < |s| ==> !s[k]
  {
    if s != [] {
      PinsDownExtremes(s[1..]);
      assert forall k :: 1 <= k < |s| ==> s[k] == s[1..][k - 1];
    }
  }

  /** Ten pins down is the rack with every pin down; none down is the fresh rack. */
  lemma RackExtremes(r: Rack)
    ensures PinsDown(r) == 10 <==> r == ALL_DOWN
    ensures PinsDown(r) == 0 <==> r == ALL_STANDING
  {
    PinsDownExtremes(r);
    if PinsDown(r) == 10 { assert r == ALL_DOWN; }
    if PinsDown(r) == 0 { assert r == ALL_STANDING; }
  }

  /** The pin counts of the fresh rack and of the rack with every pin down. */
  lemma ExtremeCounts()
    ensures PinsDown(ALL_STANDING) == 0 && Upright(ALL_STANDING) == 10
    ensures PinsDown(ALL_DOWN) == 10 && Upright(ALL_DOWN) == 0
  {
    PinsDownExtremes(ALL_STANDING);
    PinsDownExtremes(ALL_DOWN);
  }

  /** Upright count of a slice, peeled at its front. */
  lemma UprightFront(s: seq<bool>, i: nat, j: nat)
    requires i < j <= |s|
    ensures Upright(s[i..j]) == (if s[i] then 0 else 1) + Upright(s[i + 1..j])
  {
    assert s[i..j][1..] == s[i + 1..j];
  }

  /** Pins already evaluated are final, and no pin that is down gets up. */
  lemma {:induction false} RollFromKeeps(deps: Table, s: Rack, i: nat, stream: nat -> Draw, pos: nat)
    requires Layered(deps)
    requires i <= 10
    ensures forall k :: 0 <= k < i ==> RollFrom(deps, s, i, stream, pos).0[k] == s[k]
    ensures forall k :: 0 <= k < 10 && s[k] ==> RollFrom(deps, s, i, stream, pos).0[k]
    decreases 10 - i
  {
    if i < 10 {
      if s[i] {
        RollFromKeeps(deps, s, i + 1, stream, pos);
      } else {
        var falls := stream(pos) < Threshold(Standing(s, deps[i]));
        RollFromKeeps(deps, s[i := falls], i + 1, stream, pos + 1);
      }
    }
  }

  /** The rest of a roll takes one draw per standing pin, and none for a pin down. */
  lemma {:induction false} RollFromDraws(deps: Table, s: Rack, i: nat, stream: nat -> Draw, pos: nat)
    requires Layered(deps)
    requires i <= 10
    ensures RollFrom(deps, s, i, stream, pos).1 == pos + Upright(s[i..])
    decreases 10 - i
  {
    if i < 10 {
      UprightFront(s, i, 10);
      if s[i] {
        RollFromDraws(deps, s, i + 1, stream, pos);
      } else {
        var falls := stream(pos) < Threshold(Standing(s, deps[i]));
        RollFromDraws(deps, s[i := falls], i + 1, stream, pos + 1);
        assert s[i := falls][i + 1..] == s[i + 1..];
      }
    }
  }

  /** Two racks that agree below `bound` have the same standing count over indices below it. */
  lemma {:induction false} StandingAgree(a: Rack, b: Rack, idx: seq<nat>, bound: nat)
    requires bound <= 10
    requires forall m :: 0 <= m < |idx| ==> idx[m] < bound
    requires forall k :: 0 <= k < bound ==> a[k] == b[k]
    ensures Standing(a, idx) == Standing(b, idx)
    decreases |idx|
  {
    if idx != [] {
      StandingAgree(a, b, idx[..|idx| - 1], bound);
    }
  }

  /** The pin a roll reaches first is decided by the next draw, against the
      chance for its supporters, which are final by then. */
  lemma RollFromDecidesFirst(deps: Table, s: Rack, i: nat, stream: nat -> Draw, pos: nat)
    requires Layered(deps)
    requires i < 10
    ensures var r := RollFrom(deps, s, i, stream, pos).0;
      r[i] == (s[i] || stream(pos) < Threshold(Standing(r, deps[i])))
  {
    var r := RollFrom(deps, s, i, stream, pos).0;
    RollFromKeeps(deps, s, i, stream, pos);
    if !s[i] {
      var falls := stream(pos) < Threshold(Standing(s, deps[i]));
      var next := s[i := falls];
      assert r == RollFrom(deps, next, i + 1, stream, pos + 1).0;
      RollFromKeeps(deps, next, i + 1, stream, pos + 1);
      assert r[i] == falls;
      assert forall k :: 0 <= k < i ==> r[k] == s[k];
      StandingAgree(r, s, deps[i], i);
    }
  }

  /** Pin `j`'s fate in a roll started at pin `i` is its fate in the roll
      started at pin `i + 1` after pin `i` is knocked, with the draw count
      shifted by the draw pin `i` took. */
  lemma RollFromDecidesStep(deps: Table, s: Rack, i: nat, b: bool, stream: nat -> Draw, pos: nat, j: nat)
    requires Layered(deps)
    requires i < j < 10
    requires b == (s[i] || stream(pos) < Threshold(Standing(s, deps[i])))
    requires var nextPos := if s[i] then pos else pos + 1;
      var r := RollFrom(deps, s[i := b], i + 1, stream, nextPos).0;
      r[j] == (s[i := b][j] || stream(nextPos + Upright(s[i := b][i + 1..j])) < Threshold(Standing(r, deps[j])))
    ensures var r := RollFrom(deps, s, i, stream, pos).0;
      r[j] == (s[j] || stream(pos + Upright(s[i..j])) < Threshold(Standing(r, deps[j])))
  {
    RollFromStep(deps, s, i, b, stream, pos);
    assert s[i := b][i + 1..j] == s[i + 1..j];
    UprightFront(s, i, j);
  }

  /** What happens to pin `j` in the rest of a roll started at pin `i`: it is down
      when it was down, or when its draw is below the chance for its supporters as
      they are at the end of the roll. Its draw is the one after those taken by the
      pins standing from `i` up to `j`. */
  lemma {:induction false} RollFromDecides(deps: Table, s: Rack, i: nat, stream: nat -> Draw, pos: nat, j: nat)
    requires Layered(deps)
    requires i <= j < 10
    ensures var r := RollFrom(deps, s, i, stream, pos).0;
      r[j] == (s[j] || stream(pos + Upright(s[i..j])) < Threshold(Standing(r, deps[j])))
    decreases 10 - i
  {
    if j == i {
      RollFromDecidesFirst(deps, s, i, stream, pos);
      assert s[i..j] == [];
    } else {
      var b := s[i] || stream(pos) < Threshold(Standing(s, deps[i]));
      var nextPos := if s[i] then pos else pos + 1;
      RollFromDecides(deps, s[i := b], i + 1, stream, nextPos, j);
      RollFromDecidesStep(deps, s, i, b, stream, pos, j);
    }
  }

  /** The declarative description of a roll from rack `s`: every pin is down when it
      was down before, or when its own draw, the next after one draw per earlier
      standing pin, is below the chance for its supporters as the roll leaves them. */
  ghost predicate RollOutcome(deps: Table, s: Rack, stream: nat -> Draw, pos: nat, r: Rack)
    requires Layered(deps)
  {
    forall j :: 0 <= j < 10 ==>
      r[j] == (s[j] || stream(pos + Upright(s[..j])) < Threshold(Standing(r, deps[j])))
  }

  /** `Rolled` meets the description, takes one draw per standing pin and
      never raises a pin. */
  lemma RollMeetsOutcome(deps: Table, s: Rack, stream: nat -> Draw, pos: nat)
    requires Layered(deps)
    ensures RollOutcome(deps, s, stream, pos, Rolled(deps, s, stream, pos).0)
    ensures Rolled(deps, s, stream, pos).1 == pos + Upright(s)
    ensures forall k :: 0 <= k < 10 && s[k] ==> Rolled(deps, s, stream, pos).0[k]
  {
    forall j | 0 <= j < 10
      ensures var r := Rolled(deps, s, stream, pos).0;
        r[j] == (s[j] || stream(pos + Upright(s[..j])) < Threshold(Standing(r, deps[j])))
    {
      RollFromDecides(deps, s, 0, stream, pos, j);
      assert s[0..j] == s[..j];
    }
    RollFromDraws(deps, s, 0, stream, pos);
    assert s[0..] == s;
    RollFromKeeps(deps, s, 0, stream, pos);
  }

  /** Two racks meeting the description agree below `j`. */
  lemma {:induction false} OutcomesAgreeBelow(deps: Table, s: Rack, stream: nat -> Draw, pos: nat, r: Rack, t: Rack, j: nat)
    requires Layered(deps)
    requires j <= 10
    requires RollOutcome(deps, s, stream, pos, r) && RollOutcome(deps, s, stream, pos, t)
    ensures forall k :: 0 <= k < j ==> r[k] == t[k]
  {
    if j > 0 {
      OutcomesAgreeBelow(deps, s, stream, pos, r, t, j - 1);
      StandingAgree(r, t, deps[j - 1], j - 1);
    }
  }

  /** The description determines the roll: the pins' index order leaves no choice. */
  lemma RollOutcomeUnique(deps: Table, s: Rack, stream: nat -> Draw, pos: nat, t: Rack)
    requires Layered(deps)
    requires RollOutcome(deps, s, stream, pos, t)
    ensures t == Rolled(deps, s, stream, pos).0
  {
    RollMeetsOutcome(deps, s, stream, pos);
    OutcomesAgreeBelow(deps, s, stream, pos, t, Rolled(deps, s, stream, pos).0, 10);
  }

  /** A second roll on the same rack keeps every pin of the first down, so it
      never counts fewer pins. */
  lemma RollMonotone(deps: Table, s: Rack, stream: nat -> Draw, pos: nat)
    requires Layered(deps)
    ensures forall k :: 0 <= k < 10 && s[k] ==> Rolled(deps, s, stream, pos).0[k]
    ensures PinsDown(s) <= PinsDown(Rolled(deps, s, stream, pos).0)
  {
    RollMeetsOutcome(deps, s, stream, pos);
    PinsDownMonotone(s, Rolled(deps, s, stream, pos).0);
  }

  lemma {:induction false} StandingNone(s: Rack, idx: seq<nat>)
    requires forall m :: 0 <= m < |idx| ==> idx[m] < 10 && s[idx[m]]
    ensures Standing(s, idx) == 0
    decreases |idx|
  {
    if idx != [] {
      StandingNone(s, idx[..|idx| - 1]);
    }
  }

  lemma {:induction false} RollFromAllFall(deps: Table, s: Rack, i: nat, stream: nat -> Draw, pos: nat)
    requires Layered(deps)
    requires i <= 10
    requires forall n :: stream(n) < SKILL
    requires forall k :: 0 <= k < i ==> s[k]
    ensures RollFrom(deps, s, i, stream, pos).0 == ALL_DOWN
    decreases 10 - i
  {
    if i == 10 {
      assert s == ALL_DOWN;
    } else if s[i] {
      RollFromAllFall(deps, s, i + 1, stream, pos);
    } else {
      StandingNone(s, deps[i]);
      RollFromAllFall(deps, s[i := true], i + 1, stream, pos + 1);
    }
  }

  /** When every draw is below SKILL, a roll knocks down every pin still standing:
      each pin's supporters have already fallen when its turn comes. */
  lemma RollAllFall(deps: Table, s: Rack, stream: nat -> Draw, pos: nat)
    requires Layered(deps)
    requires forall n :: stream(n) < SKILL
    ensures Rolled(deps, s, stream, pos) == (ALL_DOWN, pos + Upright(s))
  {
    RollFromAllFall(deps, s, 0, stream, pos);
    RollMeetsOutcome(deps, s, stream, pos);
  }

  /** When every draw is below SKILL, a roll on ten fresh pins is a strike
      and takes ten draws. */
  lemma FreshRollAllFall(deps: Table, stream: nat -> Draw, pos: nat)
    requires Layered(deps)
    requires forall n :: stream(n) < SKILL
    ensures Rolled(deps, ALL_STANDING, stream, pos) == (ALL_DOWN, pos + 10)
  {
    RollAllFall(deps, ALL_STANDING, stream, pos);
    ExtremeCounts();
  }

  lemma {:induction false} RollFromNoneFall(deps: Table, s: Rack, i: nat, stream: nat -> Draw, pos: nat)
    requires Layered(deps)
    requires i <= 10
    requires forall n :: stream(n) >= SKILL
    ensures RollFrom(deps, s, i, stream, pos).0 == s
    decreases 10 - i
  {
    if i < 10 {
      if s[i] {
        RollFromNoneFall(deps, s, i + 1, stream, pos);
      } else {
        ThresholdRange(Standing(s, deps[i]));
        assert s[i := false] == s;
        RollFromNoneFall(deps, s, i + 1, stream, pos + 1);
      }
    }
  }

  /** When no draw is below SKILL, a roll knocks down nothing. */
  lemma RollNoneFall(deps: Table, s: Rack, stream: nat -> Draw, pos: nat)
    requires Layered(deps)
    requires forall n :: stream(n) >= SKILL
    ensures Rolled(deps, s, stream, pos) == (s, pos + Upright(s))
  {
    RollFromNoneFall(deps, s, 0, stream, pos);
    RollMeetsOutcome(deps, s, stream, pos);
  }

  /** Where pin `i` appears in a rendered grid. */
  const CELL: seq<nat> := [24, 17, 19, 9, 13, 11, 0, 6, 2, 4]

  /** Reads a rack back from a rendered grid. */
  function ReadGrid(g: string): Rack
    requires |g| == 26
  {
    seq(10, i requires 0 <= i < 10 => g[CELL[i]] == 'x')
  }

  /** Each pin has its own cell in the grid, marked by its flag. */
  lemma GridCells(r: Rack)
    ensures |StringBooleanResult(r)| == 26
    ensures forall i :: 0 <= i < 10 ==> StringBooleanResult(r)[CELL[i]] == Mark(r[i])
  {
    var g := StringBooleanResult(r);
    forall i | 0 <= i < 10
      ensures g[CELL[i]] == Mark(r[i])
    {
      if i < 5 {
        assert i == 0 || i == 1 || i == 2 || i == 3 || i == 4;
      } else {
        assert i == 5 || i == 6 || i == 7 || i == 8 || i == 9;
      }
    }
  }

  /** Outside the ten cells the grid is fixed text, whatever the rack. */
  lemma GridLayoutFixed(r: Rack, k: nat)
    requires k < 26 && k !in CELL
    ensures StringBooleanResult(r)[k] == StringBooleanResult(ALL_STANDING)[k]
  {
  }

  /** The grid shows the whole rack: it can be read back. */
  lemma GridRoundTrip(r: Rack)
    ensures ReadGrid(StringBooleanResult(r)) == r
  {
    GridCells(r);
  }

  /** A standing rack renders as four rows of 'o'. */
  lemma GridAllStanding()
    ensures StringBooleanResult(ALL_STANDING) == "o o o o\n o o o\n  o o\n   o\n"
  {
  }
}
