# BowlingSim in Dafny

A verified model of the BowlingSim engine (`engine.py`). The engine is a
small ten-pin bowling simulator:

- ten `Pin` objects rest on one another according to a fixed dependency table;
- a `PinSet` rolls by knocking the pins in index order;
- a `Frame` rolls once or twice on fresh pins and classifies the result as
  OPEN, SPARE or STRIKE;
- a `Game` plays ten frames and the tenth-frame bonus rolls. It builds the
  scorecard strings, the running `totalscore` and the textual `display`.

The engine's only source of nondeterminism is `random.random()`. Here it is
the `Draws.Random` object: an infinite stream of draws in [0, 1) and a
cursor. Every outcome is therefore a function of the stream and of the
cursor's starting position.

The model has two layers.

- **The imperative layer mirrors the engine's classes.** These are
  `Pins.Pin`, `Pins.PinSet`, `Frames.Frame` and `Games.Game`, with the same
  fields, mutated in place by methods with `modifies` clauses. The loops are
  the engine's loops, with invariants.
- **The value layer describes the same behaviour as functions.**
  - `Pins.RollFrom` / `Pins.Rolled`: one roll.
  - `Frames.PlayFrame`: one frame.
  - `Games.PlayFrames`, `Games.PlayBonus`, `Games.PlayGame`: the game.
  - `Games.Scorecard`, `Games.Total`, `Games.Display`: what the game writes.

Every method is proved against the value layer; for example,
`Games.Game.RunGame` ends with the scorecard, total and display of
`PlayGame`. The properties of the engine are then proved as lemmas about
the functions: in `PinFacts`, `Frames` and `GameFacts`.

Source files:

| file | module | contents |
|---|---|---|
| `draws.dfy` | `Draws` | the injected random source |
| `text.dfy` | `Text` | Python's `%d` for integers |
| `pins.dfy` | `Pins` | `SKILL`, racks, the dependency table, `Pin`, `PinSet`, the grid rendering |
| `pin_facts.dfy` | `PinFacts` | the threshold, roll and grid lemmas |
| `frames.dfy` | `Frames` | `FrameState`, `Frame`, the frame classification |
| `game.dfy` | `Games` | `Game.runGame`, the scoring and the scorecard and display text |
| `game_facts.dfy` | `GameFacts` | the scorecard shape, the total's range, the perfect and the gutter game |

The scoring is the engine's own lookback scheme, not standard bowling
scoring: each frame adds `sum(result2)` times a multiplier that depends on
the previous frame. The engine copies the new state into `prevState` and then
`prevState` into `prevPrevState` (engine.py:172-173). So when the bonus test
at engine.py:158-161 runs, the two are always equal. `Games.Gain` is the
engine's formula with both states as inputs. `Games.GainWithEqualStates`
shows that with equal states the formula is `Games.Multiplier`: ×1 after an
open frame or for the first frame, ×2 after a spare, ×3 after a strike. The
model keeps this behaviour: `RunGame`'s loop invariant carries
`prevPrevState == prevState`.

## Model

| member | source | states |
|---|---|---|
| Draws.Random.constructor | engine.py:2 | a fresh random source: its draws are the given stream, and none has been taken |
| Draws.Random.Next | engine.py:30 | one draw is the stream's value at the cursor, and the cursor advances by one |
| Pins.DependenciesLayered | engine.py:46-55 | the table has ten rows, and every supporter of pin `i` has an index below `i`, so the index-order roll evaluates supporters first |
| Pins.OnlyHeadPinUnsupported | engine.py:46-55 | pin 0 is the only pin with an empty dependency list |
| Pins.Threshold | engine.py:25-28 | no contract of its own: SKILL divided by 3 once per standing supporter. `PinFacts.ThresholdClosedForm` and `PinFacts.ThresholdRange` pin it down |
| Pins.Standing | engine.py:26-28 | at most as many as the supporters listed; `PinFacts.StandingAgree` pins down the rest, and `Pins.StandingAmongSelect` ties it to the pin objects |
| Pins.StandingAmong | engine.py:26-28 | no contract of its own: the count of supporter objects not yet down. `Pins.StandingAmongSelect` pins it down, and `Pins.Pin.Knock`'s loop invariant is stated with it |
| Pins.PinsDown | engine.py:105 | `sum(result)`: at most the number of pins. `PinFacts.PinsDownMonotone`, `PinFacts.PinsDownExtremes` and `PinFacts.RackExtremes` pin down the rest |
| Pins.RollFrom | engine.py:60-64 | no contract of its own: the pins from `i` on, knocked in index order as `Pin.knock` decides. `Pins.RollFromStep`, `PinFacts.RollFromKeeps`, `PinFacts.RollFromDraws` and `PinFacts.RollFromDecides` pin it down |
| Pins.Rolled | engine.py:60-64 | no contract of its own: a whole roll. `PinFacts.RollMeetsOutcome` and `PinFacts.RollOutcomeUnique` prove it is the one solution of the description `RollOutcome`, and `Pins.PinSet.Roll` is proved against it |
| Pins.Pin.constructor | engine.py:11-15 | a standing pin resting on the given pins |
| Pins.Pin.Knock | engine.py:21-33 | a pin already down returns true, stays down and takes no draw. Otherwise it takes exactly one draw and falls iff the draw is below SKILL divided by 3 once per standing supporter; the result is the new `downed` |
| Pins.PinSet.constructor | engine.py:44-55 | ten distinct, standing pins, each resting on exactly the pins its table row names |
| Pins.PinSet.Downed | engine.py:61-64 | no contract of its own: the pins' `downed` flags in index order, the list `roll` returns. `Pins.PinSet.KnockAt` and `Pins.PinSet.Roll` are stated with it |
| Pins.PinSet.KnockAt | engine.py:62-63 | knocking pin `i` sets its flag to the roll's decision for it and changes no other pin |
| Pins.PinSet.Roll | engine.py:60-64 | the returned list is the ten pins' flags after the roll, and flags and draw count are those of `Rolled` on the flags before |
| Pins.FreshRoll | engine.py:177 | `PinSet().roll()` is `Rolled` on the fresh rack |
| Pins.RollFromStep | engine.py:21-33 | one knock in a roll: a downed pin is skipped without a draw, and a standing pin is decided by the next draw |
| Pins.StandingAmongSelect | engine.py:26-28 | the standing count over a pin's supporter objects is the count over their flags |
| Pins.Mark | engine.py:70-79 | no contract of its own: 'x' for a downed pin, 'o' for a standing one. `PinFacts.GridCells` and `PinFacts.GridRoundTrip` pin it down |
| Pins.StringBooleanResult | engine.py:68-80 | always 26 characters. `PinFacts.GridCells`, `PinFacts.GridLayoutFixed`, `PinFacts.GridRoundTrip` and `PinFacts.GridAllStanding` pin down the rest |
| PinFacts.ThresholdClosedForm | engine.py:25-28 | the chance is exactly SKILL / 3^k for k standing supporters |
| PinFacts.ThresholdRange | engine.py:25-28 | every chance is positive and at most SKILL, and each further standing supporter lowers it |
| PinFacts.HeadPinChance | engine.py:46 | pin 0 always falls with chance exactly 0.8 |
| PinFacts.PinsDownMonotone | engine.py:105-110 | a rack that is down wherever another is counts at least as many pins, and the same count means the same rack |
| PinFacts.PinsDownExtremes | engine.py:105-110 | `sum` is the length iff every pin is down, and 0 iff none is |
| PinFacts.RackExtremes | engine.py:105-110 | ten down is the all-down rack and zero down is the fresh rack |
| PinFacts.ExtremeCounts | engine.py:95 | the fresh rack counts 0 down and 10 standing; the all-down rack counts 10 down |
| PinFacts.RollFromKeeps | engine.py:21-23 | a roll leaves the pins before its start unchanged and never raises a downed pin |
| PinFacts.RollFromDraws | engine.py:22-30 | a roll takes exactly one draw per pin standing at its start |
| PinFacts.StandingAgree | engine.py:26-28 | racks that agree below a bound give the same standing count over supporters below it |
| PinFacts.RollFromDecidesFirst | engine.py:25-31 | the first pin a roll reaches is decided by the next draw against the chance for its supporters as the roll leaves them |
| PinFacts.RollFromDecidesStep | engine.py:60-64 | pin `j`'s fate in a roll from pin `i` is its fate in the roll from pin `i + 1`, with the draw position shifted by pin `i`'s draw |
| PinFacts.RollFromDecides | engine.py:25-31 | every later pin's fate is decided by its own draw, the one after those of the pins standing before it, against the chance for its supporters after the roll |
| PinFacts.RollMeetsOutcome | engine.py:60-64 | `Rolled` satisfies the declarative description `RollOutcome`, takes one draw per standing pin and never raises a pin |
| PinFacts.OutcomesAgreeBelow | engine.py:57-64 | two racks meeting the description agree on every pin below any bound |
| PinFacts.RollOutcomeUnique | engine.py:57-64 | the description has exactly one solution, the rack `Rolled` returns |
| PinFacts.RollMonotone | engine.py:104-109 | a second roll on the same pins keeps every pin of the first down, so `sum(result2) >= sum(result1)` |
| PinFacts.RollFromAllFall | engine.py:25-31 | when every draw is below SKILL a partial roll downs every pin it reaches |
| PinFacts.RollAllFall | engine.py:25-31 | when every draw is below SKILL a roll downs every pin and takes one draw per standing pin |
| PinFacts.FreshRollAllFall | engine.py:103-105 | when every draw is below SKILL a roll on fresh pins is a strike after ten draws |
| PinFacts.RollFromNoneFall | engine.py:25-33 | when no draw is below SKILL a partial roll changes nothing |
| PinFacts.RollNoneFall | engine.py:25-33 | when no draw is below SKILL a roll changes nothing and takes one draw per standing pin |
| PinFacts.GridCells | engine.py:68-80 | the grid is 26 characters, and pin `i` is 'x' or 'o' at its own cell (6,8,9,7 / 3,5,4 / 1,2 / 0) |
| PinFacts.GridLayoutFixed | engine.py:69 | every character outside the ten cells is the same for every rack: the format string's spaces and newlines |
| PinFacts.GridRoundTrip | engine.py:68-80 | the grid can be read back into the rack it shows |
| PinFacts.GridAllStanding | engine.py:68-80 | the fresh rack renders as "o o o o\n o o o\n  o o\n   o\n" |
| Frames.PlayFrame | engine.py:102-114 | no contract of its own: a first roll on fresh pins and, unless it downs ten, a second on the same pins. `Frames.FrameClassified`, `Frames.PlayFrameStrike` and `Frames.PlayFrameTwoRolls` pin it down, and `Frames.Frame.SimulateFrame` is proved against it |
| Frames.PlayFrameStrike | engine.py:104-108 | ten pins on the first roll ends the frame as a strike with `result2 = result1` |
| Frames.PlayFrameTwoRolls | engine.py:109-114 | otherwise a second roll follows on the same pins, and the frame is a spare iff it reaches ten |
| Frames.FrameClassified | engine.py:102-114 | STRIKE iff `sum(result1) == 10`, and then `result2 == result1`; SPARE iff not a strike and `sum(result2) == 10`; OPEN iff `sum(result2) < 10`; `result2` keeps every pin of `result1` down; a frame takes 10 draws, plus the pins left standing when it is not a strike |
| Frames.FrameAllFall | engine.py:102-108 | when every draw is below SKILL a frame is a strike after ten draws |
| Frames.FrameNoneFall | engine.py:109-114 | when no draw is below SKILL a frame is open with nothing down after twenty draws |
| Frames.Frame.constructor | engine.py:90-98 | no state, the fresh rack as `result1`, no `result2` |
| Frames.Frame.SimulateFrame | engine.py:102-114 | records the state it returns, sets `result2`, and the state and racks are those of `PlayFrame` |
| Frames.SimulateNewFrame | engine.py:142-143 | `Frame(); frame.simulateFrame()` is `PlayFrame` at the current draw |
| Games.PlayFrames | engine.py:140-143 | n frames played in a row give n frame records |
| Games.PlayBonus | engine.py:175-229 | no contract of its own: the rolls after the tenth frame, by its state. `GameFacts.PlayBonusFits`, `Games.PlayBonusSpare`, `Games.PlayBonusStrikes` and `Games.PlayBonusNoStrike` pin it down, and `Games.Game.BonusRolls` is proved against it |
| Games.PlayGame | engine.py:131-229 | a game has ten frame records. `GameFacts.PlayGamePlayed` and `Games.PlayGameOf` pin down the rest, and `Games.Game.RunGame` is proved against it |
| Games.FrameEntry | engine.py:146-151 | no contract of its own: the scorecard entry of a frame, by its state. `GameFacts.FrameEntryRead` pins it down |
| Games.Entries | engine.py:145-151 | one scorecard entry per frame |
| Games.BonusEntries | engine.py:179-219 | at most one entry, and none exactly when there is no bonus. `GameFacts.BonusEntryWidth` and `GameFacts.ScorecardShape` pin down the rest |
| Games.Gain | engine.py:154-161 | the factor is 1, 2 or 3, and 1 exactly when the previous frame was open |
| Games.Multiplier | engine.py:156-161 | no contract of its own: ×1 after an open frame, ×2 after a spare, ×3 after a strike. `Games.GainWithEqualStates` proves it is the engine's factor when `prevPrevState == prevState`, as engine.py:172-173 makes it, and `GameFacts.FramePoints` bounds it |
| Games.LookbackTotal | engine.py:153-161 | no contract of its own: each frame's `sum(result2)` times the multiplier of the frame before. `Games.AppendFrame`, `GameFacts.LookbackBound`, `GameFacts.LookbackMaximum`, `GameFacts.LookbackOfStrikes` and `GameFacts.LookbackOfGutters` pin it down |
| Games.Total | engine.py:153-222 | no contract of its own: the frames' points and the bonus points. `GameFacts.TotalRange` and `GameFacts.PerfectIffMaximum` pin it down, and `Games.Game.RunGame` adds it to `totalscore` |
| Games.Scorecard | engine.py:145-219 | no contract of its own: the frames' entries followed by the bonus entry. `GameFacts.ScorecardShape` and `GameFacts.ScorecardWidth` pin it down, and `Games.Game.RunGame` appends it to `scorecard` |
| Games.BonusPoints | engine.py:185-222 | no contract of its own: each bonus roll's pins, counted once. `GameFacts.BonusBound` pins it down |
| Games.GainWithEqualStates | engine.py:153-161 | with `prevPrevState == prevState` the engine's formula is the multiplier: ×1 after OPEN, ×2 after SPARE, ×3 after STRIKE. With distinct states a strike followed by a non-strike counts ×2 |
| Games.AppendFrameTextShift | engine.py:163-170 | a frame's display text does not depend on what was displayed before it |
| Games.AppendFramesTextShift | engine.py:163-170 | nor does the display text of a run of frames |
| Games.AppendBonusTextShift | engine.py:189-191 | nor does the bonus rolls' display text |
| Games.AppendFrame | engine.py:145-170 | one more frame adds its entry to the scorecard, its pins times the multiplier of the frame before it to the total, and its text to the display |
| Games.AppendFrameText | engine.py:164-170 | no contract of its own: the heading, the first grid and, unless a strike, the second grid. `Games.AppendFrameTextShift` pins it down, and `Games.Game.AddToDisplay` is proved against it |
| Games.AppendFramesText | engine.py:140-170 | no contract of its own: the frames' texts, numbered from one. `Games.AppendFrame` and `Games.AppendFramesTextShift` pin it down |
| Games.AppendBonusText | engine.py:189-229 | no contract of its own: the bonus grids. `Games.AppendBonusTextShift` pins it down, and `Games.Game.SpareBonusRoll` and `Games.Game.ShowStrikeBonus` are proved against it |
| Games.Display | engine.py:163-229 | no contract of its own: the frames' text followed by the bonus text. `Games.Game.RunGame` appends it to `display` |
| Games.PlayGameOf | engine.py:140-229 | a game is ten frames followed by the bonus that the tenth frame's state calls for |
| Games.PlayBonusSpare | engine.py:176-177 | after a tenth-frame spare, the bonus is one roll on fresh pins |
| Games.PlayBonusStrikes | engine.py:195-205 | after a tenth-frame strike whose extra frame is a strike, the bonus is that frame plus one more roll on fresh pins |
| Games.PlayBonusNoStrike | engine.py:195-199 | after a tenth-frame strike whose extra frame is not a strike, the bonus is that frame, and its second rack is the third roll's |
| Games.Game.constructor | engine.py:119-127 | an empty scorecard, an empty display and a total of 0 |
| Games.Game.RunGame | engine.py:131-229 | appends `Scorecard`, adds `Total` and appends `Display` of `PlayGame` for the draws from the cursor, and leaves the cursor after the game's draws; the loop keeps `prevPrevState == prevState` |
| Games.Game.RecordFrame | engine.py:145-170 | a frame's entry, its points times `Gain(prevState, prevPrevState)` and its display text |
| Games.Game.AddToScorecard | engine.py:145-151 | appends "a b", "a /" or "X  " for an open frame, a spare or a strike, and changes nothing else |
| Games.Game.AddToTotal | engine.py:153-161 | adds `score` times `Gain(prevState, prevPrevState)` and changes nothing else |
| Games.Game.AddToDisplay | engine.py:163-170 | appends the frame heading, the first grid and, unless a strike, the second grid, and changes nothing else |
| Games.Game.BonusRolls | engine.py:175-229 | the bonus rolls that `PlayBonus` describes for the tenth frame's state: none after an open frame |
| Games.Game.SpareBonusRoll | engine.py:175-191 | after a spare: one roll on fresh pins, its entry "X  " or "n  ", its pins in the total, its grid |
| Games.Game.StrikeBonusRolls | engine.py:193-229 | after a strike: a new frame, and when it is a strike a further roll on fresh pins |
| Games.Game.ScoreStrikeBonus | engine.py:201-219 | the entry is "X X", "X n", "a /" or "a b". The total gains both rolls after a double strike, else the frame's second rack |
| Games.Game.ShowStrikeBonus | engine.py:224-229 | appends the two bonus grids, labelled "Roll 2:" and "Roll 3:" |
| Text.Decimal | engine.py:147 | never empty, led by a digit, and one character exactly for numbers below ten. `Text.DecimalDigits` and `Text.DecimalRoundTrip` pin down the rest |
| Text.FormatInt | engine.py:147 | `%d` never writes an empty string; it starts with a digit exactly when the number is non-negative, and a number below ten is one digit |
| Text.DecimalDigits | engine.py:147 | every character `%d` writes for a non-negative number is a digit |
| Text.DecimalRoundTrip | engine.py:147 | the digits read back as the number |
| Text.FormatIntRoundTrip | engine.py:147 | what `%d` writes for any integer, sign included, reads back as that integer |
| GameFacts.PlayFramesWellFormed | engine.py:140-143 | every frame of a run of frames is classified as `FrameClassified` states |
| GameFacts.PlayBonusFits | engine.py:175-229 | no bonus after an open frame, one roll after a spare, an extra well-formed frame after a strike |
| GameFacts.PlayGamePlayed | engine.py:131-229 | every game is ten well-formed frames and the bonus that fits the tenth |
| GameFacts.ScorecardShape | engine.py:145-219 | the scorecard has 10 entries, or 11 exactly when frame 10 was a spare or a strike; the first ten are the frames' entries |
| GameFacts.SingleDigit | engine.py:147 | a count below ten is written as one digit |
| GameFacts.FrameEntryRead | engine.py:145-151 | every frame entry is three characters wide. It shows the frame's state and, unless a strike, the first count; and the entry reads back as the frame's `sum(result2)` |
| GameFacts.BonusEntryWidth | engine.py:179-219 | the eleventh entry is three characters wide too |
| GameFacts.ScorecardWidth | engine.py:145-219 | every scorecard entry is three characters wide |
| GameFacts.FramePoints | engine.py:153-161 | a frame adds between 0 and 30 points, and 30 only for ten pins after a strike |
| GameFacts.LookbackBound | engine.py:153-161 | n frames add between 0 and 30n - 20 points |
| GameFacts.LookbackMaximum | engine.py:153-161 | the bound is reached iff every frame downs ten pins and every frame but the last is a strike |
| GameFacts.BonusBound | engine.py:175-219 | the bonus adds between 0 and 20 points, and 20 iff both bonus rolls are strikes |
| GameFacts.TotalRange | engine.py:131-229 | every total lies between 0 and 300 |
| GameFacts.PerfectScoresMaximum | engine.py:131-229 | a perfect played game totals 300 |
| GameFacts.MaximumIsPerfect | engine.py:131-229 | a played game that totals 300 is perfect: ten strikes and two strike bonus rolls |
| GameFacts.PerfectIffMaximum | engine.py:131-229 | a game totals 300 iff it is perfect: ten strikes and two strike bonus rolls |
| GameFacts.FramesRepeatDraws | engine.py:140-143 | when every frame comes out as the same record after the same `c` draws, a run of `n` frames ends `c·n` draws later |
| GameFacts.FramesRepeat | engine.py:140-143 | when every frame comes out as the same record after the same `c` draws, a run of `n` frames is `n` copies of it and ends `c·n` draws later |
| GameFacts.LookbackOfStrikes | engine.py:153-161 | n strikes with all ten pins score 30n - 20 |
| GameFacts.LookbackOfGutters | engine.py:153-161 | frames with nothing down score 0 |
| GameFacts.PerfectFrames | engine.py:140-143 | when every draw is below SKILL the ten frames are strikes, after 100 draws |
| GameFacts.PerfectBonus | engine.py:193-211 | when every draw is below SKILL the bonus is two more strikes, after 20 draws |
| GameFacts.PerfectRecord | engine.py:145-219 | the perfect game scores 10 + 9·30 + 20 = 300, on ten "X  " entries and a final "X X" |
| GameFacts.PerfectGame | engine.py:131-229 | when every draw is below SKILL the game is perfect: 300 points, ten "X  " and "X X", after 120 draws |
| GameFacts.GutterFrames | engine.py:140-143 | when no draw is below SKILL the ten frames are open with nothing down, after 200 draws |
| GameFacts.GutterRecord | engine.py:145-161 | the gutter game scores 0 on ten "0 0" entries |
| GameFacts.GutterGame | engine.py:131-229 | when no draw is below SKILL the game scores 0 and every entry is "0 0", with no bonus roll, after 200 draws |

## Left out

- `onegame.py`: a driver script of `print` calls and whitespace clean-up of the printed table; it is I/O only.
- `random.random()`: replaced by the injected stream `Draws.Random`. Python's generator and the statistical distribution of the draws are not modelled.
- Floating point: the chances `0.8 / 3^k` are exact reals. Python's rounding of `0.8 / 3 / 3 …` is not modelled, so a draw that lies within rounding error of a threshold may be decided differently.
- `Pins.PinSet.constructor`: the ten `append` calls of engine.py:46-55 are written as a loop over the dependency table `DEPENDENCIES`, which holds the same lists.
- The engine's inline code is split into helper methods along its own comment blocks. These are `PinSet.KnockAt`, `FreshRoll`, `SimulateNewFrame`, `Game.RecordFrame`, `AddToScorecard`, `AddToTotal`, `AddToDisplay`, `BonusRolls`, `SpareBonusRoll`, `StrikeBonusRolls`, `ScoreStrikeBonus` and `ShowStrikeBonus`.
- Aliasing of racks: after a strike the engine stores the same list object in `result1` and `result2` (engine.py:107). The model stores two equal immutable sequences; no list is mutated after it is stored, so nothing observable depends on the aliasing.
- `Frames.Frame.SimulateFrame`: the racks it records are the flag values after each roll, not the Python list objects.
- A `Frame` is created and dropped inside `SimulateNewFrame`, and a `PinSet` inside `FreshRoll` and `SimulateFrame`; only their recorded values flow on, as in the engine.
- The roll and frame lemmas are stated for any dependency table in which every supporter has a smaller index (`Pins.Layered`); the engine's table is one of them (`Pins.DependenciesLayered`).
