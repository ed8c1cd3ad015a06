/** The ten pins, their dependency table, the knockdown rule and a roll
    (engine.py:1-80). A pin's `downed` flag is state that `Pin.Knock`
    updates in place; `RollFrom` is the value-level description of a roll
    that `PinSet.Roll` is proved against. */
module Pins {
  import opened Draws

  /** Chance that a pin with no standing supporter falls (engine.py:5). */
  const SKILL: real := 0.8

  /** The downed flag of each of the ten pins, by index (true = knocked down). */
  type Rack = s: seq<bool> | |s| == 10
    witness [false, false, false, false, false, false, false, false, false, false]

  const ALL_STANDING: Rack := [false, false, false, false, false, false, false, false, false, false]
  const ALL_DOWN: Rack := [true, true, true, true, true, true, true, true, true, true]

  /** For each pin, the indices of the pins it rests on. */
  type Table = seq<seq<nat>>

  /** A table for ten pins in which every supporter of pin `i` has a smaller
      index, so that rolling the pins in index order evaluates supporters first. */
  predicate Layered(deps: Table) {
    |deps| == 10 &&
    forall i, k :: 0 <= i < 10 && 0 <= k < |deps[i]| ==> deps[i][k] < i
  }

  /** The engine's table (engine.py:46-55), pins numbered
        6 8 9 7
         3 5 4
          1 2
           0        */
  const DEPENDENCIES: Table :=
    [[], [0], [0], [1], [2], [1, 2, 3, 4], [3], [4], [3, 5, 6], [4, 5, 7, 8]]

  lemma DependenciesLayered()
    ensures Layered(DEPENDENCIES)
  {
  }

  /** Pin 0 is the only pin without supporters. */
  lemma OnlyHeadPinUnsupported()
    ensures forall i :: 0 <= i < 10 ==> (DEPENDENCIES[i] == [] <==> i == 0)
  {
  }

  /** The knockdown chance with `k` standing supporters, as `Pin.knock`
      computes it: SKILL, divided by 3 once per standing supporter. */
  function Threshold(k: nat): real {
    if k == 0 then SKILL else Threshold(k - 1) / 3.0
  }

  /** How many of the pins at `idx` still stand in `s`, counted in list order. */
  function Standing(s: Rack, idx: seq<nat>): (n: nat)
    requires forall m :: 0 <= m < |idx| ==> idx[m] < 10
    ensures n <= |idx|
  {
    if idx == [] then 0
    else Standing(s, idx[..|idx| - 1]) + (if s[idx[|idx| - 1]] then 0 else 1)
  }

  /** `sum(result)`: the number of pins down. */
  function PinsDown(s: seq<bool>): (n: nat)
    ensures n <= |s|
  {
    if s == [] then 0 else (if s[0] then 1 else 0) + PinsDown(s[1..])
  }

  /** The number of pins still standing. */
  function Upright(s: seq<bool>): nat {
    |s| - PinsDown(s)
  }

  /** Pins `i` to 9 of a roll, knocked in index order starting from rack `s`
      with the draw at `pos` next (engine.py:21-33, 60-64). A pin already down
      stays down and takes no draw; a standing pin takes one draw and falls
      when it is below the threshold for its supporters standing now, after
      the earlier pins of this same roll. The result is the final rack and the
      position of the next unused draw. */
  function RollFrom(deps: Table, s: Rack, i: nat, stream: nat -> Draw, pos: nat): (Rack, nat)
    requires Layered(deps) && i <= 10
    decreases 10 - i
  {
    if i == 10 then (s, pos)
    else if s[i] then RollFrom(deps, s, i + 1, stream, pos)
    else
      var falls := stream(pos) < Threshold(Standing(s, deps[i]));
      RollFrom(deps, s[i := falls], i + 1, stream, pos + 1)
  }

  /** One roll on a rack: all ten pins in index order. */
  function Rolled(deps: Table, s: Rack, stream: nat -> Draw, pos: nat): (Rack, nat)
    requires Layered(deps)
  {
    RollFrom(deps, s, 0, stream, pos)
  }

  /** One step of `RollFrom`: knocking pin `i` to `b` and going on from pin `i + 1`. */
  lemma RollFromStep(deps: Table, s: Rack, i: nat, b: bool, stream: nat -> Draw, pos: nat)
    requires Layered(deps) && i < 10
    requires b == (s[i] || stream(pos) < Threshold(Standing(s, deps[i])))
    ensures RollFrom(deps, s[i := b], i + 1, stream, if s[i] then pos else pos + 1)
         == RollFrom(deps, s, i, stream, pos)
  {
    if s[i] {
      assert s[i := b] == s;
    }
  }

  /** The standing count of a list of pin objects, counted in list order. */
  function StandingAmong(ps: seq<Pin>): nat
    reads ps
  {
    if ps == [] then 0
    else StandingAmong(ps[..|ps| - 1]) + (if ps[|ps| - 1].downed then 0 else 1)
  }

  /** The pins of `ps` at the indices `idx`. */
  function Select(ps: seq<Pin>, idx: seq<nat>): (r: seq<Pin>)
    requires forall m :: 0 <= m < |idx| ==> idx[m] < |ps|
    ensures |r| == |idx| && forall m :: 0 <= m < |idx| ==> r[m] == ps[idx[m]]
  {
    seq(|idx|, m requires 0 <= m < |idx| => ps[idx[m]])
  }

  /** The standing count over pin objects agrees with the count over their flags. */
  lemma {:induction false} StandingAmongSelect(ps: seq<Pin>, idx: seq<nat>, s: Rack)
    requires |ps| == 10 && forall i :: 0 <= i < 10 ==> s[i] == ps[i].downed
    requires forall m :: 0 <= m < |idx| ==> idx[m] < 10
    ensures StandingAmong(Select(ps, idx)) == Standing(s, idx)
    decreases |idx|
  {
    if idx != [] {
      var n := |idx| - 1;
      assert Select(ps, idx)[..n] == Select(ps, idx[..n]);
      StandingAmongSelect(ps, idx[..n], s);
    }
  }

  /** No pin occurs twice. */
  ghost predicate Distinct(ps: seq<Pin>) {
    forall i, j :: 0 <= i < j < |ps| ==> ps[i] != ps[j]
  }

  /** A bowling pin (engine.py:10-33). */
  class Pin {
    /** The pins this pin rests on. */
    const dependent: seq<Pin>
    /** Whether the pin has been knocked down. */
    var downed: bool

    constructor (dependent: seq<Pin>)
      ensures this.dependent == dependent && !downed
    {
      this.dependent := dependent;
      downed := false;
    }

    /** Tries to knock the pin down and reports whether it is down. A pin
        already down stays down and takes no draw; otherwise one draw decides,
        against SKILL divided by 3 per standing supporter. */
    method Knock(rng: Random) returns (r: bool)
      modifies this, rng
      ensures r == downed
      ensures old(downed) ==> downed && rng.pos == old(rng.pos)
      ensures !old(downed) ==>
        rng.pos == old(rng.pos) + 1 &&
        (downed <==> rng.stream(old(rng.pos)) < Threshold(old(StandingAmong(dependent))))
    {
      if downed {
        return true;
      }
      var prob := SKILL;
      for j := 0 to |dependent|
        invariant prob == Threshold(StandingAmong(dependent[..j]))
      {
        assert dependent[..j + 1][..j] == dependent[..j];
        if !dependent[j].downed {
          prob := prob / 3.0;
        }
      }
      assert dependent[..|dependent|] == dependent;
      var draw := rng.Next();
      if draw < prob {
        downed := true;
        return true;
      }
      return false;
    }
  }

  /** Ten pins wired by the dependency table (engine.py:41-64). */
  class PinSet {
    const pinList: seq<Pin>
    /** The table the pins were wired by. */
    ghost const deps: Table

    /** Ten distinct pins, each resting on the pins the table names. */
    ghost predicate Valid() {
      Layered(deps) &&
      |pinList| == 10 &&
      Distinct(pinList) &&
      forall i :: 0 <= i < 10 ==> pinList[i].dependent == Select(pinList, deps[i])
    }

    /** The downed flags of the ten pins. */
    function Downed(): Rack
      requires Valid()
      reads pinList
    {
      seq(10, i requires 0 <= i < 10 reads pinList => pinList[i].downed)
    }

    constructor ()
      ensures Valid() && deps == DEPENDENCIES && fresh(pinList) && Downed() == ALL_STANDING
    {
      DependenciesLayered();
      var list: seq<Pin> := [];
      for i := 0 to 10
        invariant |list| == i && Distinct(list) && fresh(list)
        invariant forall k :: 0 <= k < i ==> !list[k].downed
        invariant forall k :: 0 <= k < i ==> list[k].dependent == Select(list, DEPENDENCIES[k])
      {
        var p := new Pin(Select(list, DEPENDENCIES[i]));
        forall k | 0 <= k < i
          ensures Select(list + [p], DEPENDENCIES[k]) == Select(list, DEPENDENCIES[k])
        {
        }
        list := list + [p];
      }
      pinList := list;
      deps := DEPENDENCIES;
    }

    /** Knocks pin `i`: its flag becomes `RollFrom`'s decision for it, and no
        other pin changes. */
    method KnockAt(i: nat, rng: Random) returns (b: bool)
      requires Valid() && i < 10
      modifies pinList[i], rng
      ensures Downed() == old(Downed())[i := b]
      ensures b == (old(Downed())[i] || rng.stream(old(rng.pos)) < Threshold(Standing(old(Downed()), deps[i])))
      ensures rng.pos == if old(Downed())[i] then old(rng.pos) else old(rng.pos) + 1
    {
      StandingAmongSelect(pinList, deps[i], Downed());
      b := pinList[i].Knock(rng);
      forall j | 0 <= j < 10
        ensures Downed()[j] == old(Downed())[i := b][j]
      {
        if j != i {
          assert pinList[j] != pinList[i];
        }
      }
    }

    /** Knocks every pin in index order and returns the pins' flags, which
        are `RollFrom`'s rack for the flags before the roll. */
    method Roll(rng: Random) returns (result: seq<bool>)
      requires Valid()
      modifies pinList, rng
      ensures result == Downed()
      ensures (Downed(), rng.pos) == Rolled(deps, old(Downed()), rng.stream, old(rng.pos))
    {
      ghost var target := Rolled(deps, Downed(), rng.stream, rng.pos);
      result := [];
      for i := 0 to 10
        invariant result == Downed()[..i]
        invariant RollFrom(deps, Downed(), i, rng.stream, rng.pos) == target
      {
        ghost var before := Downed();
        ghost var drawn := rng.pos;
        var b := KnockAt(i, rng);
        RollFromStep(deps, before, i, b, rng.stream, drawn);
        result := result + [b];
      }
    }
  }

  /** `PinSet().roll()`: one roll on ten fresh pins. */
  method FreshRoll(rng: Random) returns (result: Rack)
    modifies rng
    ensures (result, rng.pos) == Rolled(DEPENDENCIES, ALL_STANDING, rng.stream, old(rng.pos))
  {
    var pins := new PinSet();
    result := pins.Roll(rng);
  }

  /** How a pin shows in a grid: 'x' when down, 'o' when standing. */
  function Mark(down: bool): char {
    if down then 'x' else 'o'
  }

  /** `PinSet.stringBooleanResult`: the rack as four rows, back row first
      (engine.py:68-80). */
  function StringBooleanResult(r: Rack): (g: string)
    ensures |g| == 26
  {
    [Mark(r[6]), ' ', Mark(r[8]), ' ', Mark(r[9]), ' ', Mark(r[7]), '\n',
     ' ', Mark(r[3]), ' ', Mark(r[5]), ' ', Mark(r[4]), '\n',
     ' ', ' ', Mark(r[1]), ' ', Mark(r[2]), '\n',
     ' ', ' ', ' ', Mark(r[0]), '\n']
  }
}
