# Bowling score engine, modelled in Dafny

This project models the scoring core of the bowling service: `generate` and the `Frame` class in
`bowling/bowling/score.py`. `generate` turns a list of rolls (pins knocked down per throw) into the
list of frames of a ten-pin game. Each frame carries its own rolls, its running score and its
strike, spare and completed flags. The model follows the code as written, quirks included. It
proves what a run of `generate` returns and that it agrees with a frame-by-frame scorer written
from the rules, and it plays the repository's scoring tests through the model.

Modules, one per concern:

- `Wrappers` (wrappers.dfy): `Option` and `Result`. A raised exception becomes `Failure(e)`.
- `Frames` (frames.dfy): the `Frame` class as an immutable datatype holding its stored fields.
  - `AddRoll` returns the next snapshot, or the error `add_roll` raises.
  - `WellFormed` is the state every reachable frame is in, and `AddRoll` keeps it.
- `Generator` (generator.dfy): the loop of `generate`.
  - `Step` is one pass of the loop body and `Iterate` the loop over a prefix of the input.
  - `Lookahead` is the `try` block that feeds the next rolls to a strike or a spare. The
    `IndexError` it swallows becomes a length check.
- `GeneratorProofs` (proofs.dfy): the loop invariant `Inv`, its preservation and the errors a
  pass can raise.
  - `Emission` describes the emitted list.
  - `Shapes` describes where each frame's rolls come from in the input.
- `GameProperties` (properties.dfy): what a whole run returns.
  - The frames are chained by score, and each score is the running total.
  - The input is accounted for frame by frame, and frames 1-9 take their bonus from the rolls
    that follow.
  - Only three errors are possible.
  - Rolls after a finished tenth frame are skipped or refused.
- `Reference` (reference.dfy): `Score`, ten-pin scoring written from the rules.
  - `Score` works out the frame boundaries, the bonus rolls and the running totals itself.
  - Its frames take their strike, spare and completed flags from `Frames.Recalculate`, the
    model's own reading of `add_roll`, so the comparison does not check those flags
    independently. What the flags mean is stated by `Frames.AddRollRecomputes` and
    `Frames.CompletionTables`.
- `Agreement` (agreement.dfy): the loop against the reference scorer.
  `GenerateAgrees` proves that `generate` returns exactly the frames of `Score` on every
  legal game, finished or not.
- `ReferenceGames` (vectors.dfy): one lemma per kind of loop pass (open frame, spare, strike,
  tenth frame, refused roll), stated for any input. Also the all-strike games and the
  one-, two- and three-strike tests.
- `ScoreTestCases` (testcases.dfy): the other scoring tests of `bowling/bowling/tests.py`.
  Each is checked against the reference scorer or built from the pass lemmas.

Behaviour the model keeps because the code has it:

- A negative roll is accepted. Only a roll above `MAX_PINS` is refused.
- A spare is "the first two own rolls sum to `MAX_PINS`". In the tenth frame `10, 0` is
  therefore both a strike and a spare.
- Two strikes `[10, 10]` give frame 2 a score of 30. The bonus rolls taken so far are added to
  frame 1's 20, and the tests expect this.
- In the tenth frame, a strike followed by exactly one more roll at the end of the input
  reaches the frame twice.
  - The lookahead takes that roll as the second own roll, then the loop feeds the same roll
    again.
  - A second strike there yields `[10, 10, 10]`. A gutter ball yields `[10, 0, 0]`, a
    completed frame flagged both strike and spare. A roll from 1 to 9 makes the frame
    overflow (`GeneratorProofs.RefeedStep`, `ReferenceGames.Refeed`).
- In the tenth frame a strike followed by a roll of 1 to 9 leaves 11 to 19 pins counted. The
  cap then falls back to one rack, so every third roll from 0 to `MAX_PINS` is refused with
  `FrameOverflow`. After a second roll x only a third roll of at most -x fits
  (`ReferenceGames.TenthThirdRollFits`).
- The "Frames exceeded" condition `index <= rolls_count - 1` always holds inside the loop, so
  any roll after a finished open tenth frame fails.
- Thirteen strikes, and twenty fives followed by `10, 1`, both score normally. The extra rolls
  after a finished tenth strike or spare are skipped. The tests at `tests.py:175-189` expect
  an exception; the model proves the successful result the code returns.
- The Frame constructor refuses a number above `MAX_FRAMES`. `generate` never reaches that
  refusal, and `GameProperties.GenerateErrors` proves it.

## Model

| member | source | states |
|---|---|---|
| Frames.NewFrame | bowling/bowling/score.py:47-76 | a frame can be built exactly when its number is at most MAX_FRAMES, else the error is TooManyFrames; a new frame is well formed, holds no rolls, is not completed and has no score yet |
| Frames.RollsSumMax | bowling/bowling/score.py:206-221 | the cap on a frame's own pins is one rack, raised by one rack in the last frame exactly when the pins already down are one or two racks |
| Frames.AddRoll | bowling/bowling/score.py:142-177 | refuses a roll on a completed frame, then a roll above MAX_PINS; in frames 1-9 a strike or spare appends the roll to its bonus rolls, otherwise the roll becomes an own roll exactly when it fits under the cap, else FrameOverflow; the score grows by the roll |
| Frames.AddRollRecomputes | bowling/bowling/score.py:172-177 | after a roll the strike flag means "first own roll is MAX_PINS", spare means "first two own rolls sum to MAX_PINS", and the score is the previous score plus every own and bonus roll |
| Frames.AddRollKeepsWellFormed | bowling/bowling/score.py:142-177 | a roll accepted by a well-formed frame leaves it well formed, with its flags consistent with its rolls |
| Frames.CompletionTables | bowling/bowling/score.py:179-236 | for a well-formed frame, completed means the score is final by the table (three own rolls for a tenth strike or spare, two or one bonus rolls elsewhere, two rolls when open); a completed frame takes no more own rolls; the two flags agree in the tenth frame; a strike in 1-9 closes its own rolls at once |
| Frames.ClosedFrameTakesNoOwnRoll | bowling/bowling/score.py:158-170 | a frame whose own rolls are complete never gains another own roll |
| Frames.OpenFrameTakesOwnRoll | bowling/bowling/score.py:163-170 | a frame whose own rolls are not complete accepts one more own roll that fits under its cap |
| Generator.Start | bowling/bowling/score.py:14-16 | the loop starts on an empty, well-formed frame 1 with previous score 0 and nothing emitted |
| Generator.Lookahead | bowling/bowling/score.py:27-36 | an open frame is left as it is; a successful lookahead keeps the frame's number and starting score; it fails only as add_roll fails |
| Generator.Step | bowling/bowling/score.py:18-42 | one pass only appends to the emitted list, by at most one frame, and advances the frame number by at most one |
| GeneratorProofs.StartInv | bowling/bowling/score.py:14-16 | the loop invariant holds before the first roll |
| GeneratorProofs.LookaheadTakesFollowing | bowling/bowling/score.py:27-36 | in frames 1-9 the lookahead gives a fresh strike or spare exactly the rolls that follow it in the input, as many as it is owed and the input holds; it fails exactly when one of them is above MAX_PINS |
| GeneratorProofs.LookaheadEndFrame | bowling/bowling/score.py:27-36 | in the tenth frame the lookahead appends the following input rolls as own rolls, failing only on a roll above MAX_PINS or over the cap |
| GeneratorProofs.SkipStep | bowling/bowling/score.py:19-22 | after a finished tenth frame a roll is skipped if it ended on a strike or spare and refused with FramesExceeded if it ended open |
| GeneratorProofs.RefeedStep | bowling/bowling/score.py:18-42 | when the input ends with a tenth-frame strike and one roll that the lookahead already took as the second own roll, the loop's pass for that roll adds it again as a third own roll and emits the frame, failing exactly when add_roll refuses the repeated roll |
| GeneratorProofs.StepKeepsInv | bowling/bowling/score.py:18-42 | one pass of the loop body keeps the invariant: emitted frames chained and in order, own rolls slicing the input, bonus rolls taken from the rolls that follow |
| GeneratorProofs.IterateInv | bowling/bowling/score.py:18-44 | the invariant holds after every prefix of the input the loop gets through |
| GeneratorProofs.StepErrors | bowling/bowling/score.py:18-42 | a pass fails only on a roll above MAX_PINS, a roll over a frame's cap, or a roll after a finished tenth frame |
| GeneratorProofs.IterateErrors | bowling/bowling/score.py:5-44 | the loop never fails on a completed frame or on an eleventh frame |
| GameProperties.GenerateFrames | bowling/bowling/score.py:5-44 | generate returns frames 1..k in order, each well formed and starting from the score of the one before; there are no frames exactly when there are no rolls; the input is accounted for as own rolls; frames 1-9 hold as bonus the rolls that follow |
| GameProperties.FinalTenth | bowling/bowling/score.py:27-42 | after the last roll, the own rolls of all frames are the input; or the input with the rolls after a finished tenth strike or spare dropped; or the input with its last roll repeated |
| GameProperties.GenerateErrors | bowling/bowling/score.py:5-44 | generate fails only with InvalidPins, FrameOverflow or FramesExceeded |
| GameProperties.ScoresAreRunningTotals | bowling/bowling/score.py:172-174 | in a chained list each frame's score is the sum of the own and bonus rolls of every frame up to it |
| GameProperties.GenerateScores | bowling/bowling/score.py:24-25 | each score generate reports is the running total of the points of the frames so far |
| GameProperties.GenerateScoresNonDecreasing | bowling/bowling/score.py:172-174 | with no negative roll in the input, no frame scores less than the frame before it |
| GameProperties.SkipsAfterBonusTenth | bowling/bowling/score.py:19-22 | once the tenth frame is finished on a strike or spare, later rolls leave the loop state unchanged |
| GameProperties.FailsAfterOpenTenth | bowling/bowling/score.py:19-21 | once the tenth frame is finished open, any further roll ends the loop with FramesExceeded |
| GameProperties.OpenTenthRefuses | bowling/bowling/score.py:20-21 | the roll right after a finished open tenth frame is refused with FramesExceeded |
| GameProperties.FailureStays | bowling/bowling/score.py:18-25 | a failure ends the loop; the next roll leaves it as it is |
| GameProperties.GenerateAfterTenth | bowling/bowling/score.py:18-22 | generate returns the frames so far once the tenth frame is finished on a strike or spare, whatever follows; it fails with FramesExceeded if any roll follows an open finished tenth |
| Agreement.Agrees | bowling/bowling/score.py:18-42 | from a state that has just opened frame k at score p, the loop over a legal rest of the input emits what the reference scorer gives |
| Agreement.GenerateAgrees | bowling/bowling/score.py:5-44 | on every legal game, finished or not, generate returns exactly the frames of the rules-based reference scorer |
| ReferenceGames.FirstRoll | bowling/bowling/score.py:24-42 | a first roll short of a strike opens frame k and waits for the second; it is emitted only when the input ends |
| ReferenceGames.StrikeRoll | bowling/bowling/score.py:31-33 | a first-roll strike in frames 1-9 is emitted at once with up to two following rolls as bonus |
| ReferenceGames.InvalidRoll | bowling/bowling/score.py:155-156 | a roll above MAX_PINS is refused with InvalidPins |
| ReferenceGames.SecondOwnRoll | bowling/bowling/score.py:163-166 | a second roll fits exactly when the two rolls total at most MAX_PINS, else FrameOverflow |
| ReferenceGames.OpenRoll | bowling/bowling/score.py:38-42 | a second roll that leaves pins standing closes the frame open and emits it |
| ReferenceGames.OverflowRoll | bowling/bowling/score.py:165-166 | a second roll over the pins still standing is refused with FrameOverflow |
| ReferenceGames.SpareRoll | bowling/bowling/score.py:28-29 | a spare in frames 1-9 is emitted with the next roll, if any, as bonus |
| ReferenceGames.TenthSpareRoll | bowling/bowling/score.py:28-29 | a spare in the tenth frame takes the next roll, if any, as its third own roll |
| ReferenceGames.TenthStrikes | bowling/bowling/score.py:31-33 | a tenth-frame strike followed by a strike or gutter ball and one more roll up to MAX_PINS holds all three as own rolls and is emitted |
| ReferenceGames.TenthSecondRoll | bowling/bowling/score.py:206-221 | any roll up to MAX_PINS, negative rolls included, fits after a strike in the tenth frame |
| ReferenceGames.TenthThirdRoll | bowling/bowling/score.py:206-221 | after a tenth-frame strike and a strike or gutter ball, any third roll up to MAX_PINS, negative rolls included, fits |
| ReferenceGames.TenthThirdRollFits | bowling/bowling/score.py:206-221 | after a tenth-frame strike and a second roll x, a third roll up to MAX_PINS fits exactly when x is a strike or a gutter ball or the two later rolls sum to at most 0; otherwise it is refused with FrameOverflow, so after x from 1 to 9 every third roll from 0 to MAX_PINS is refused |
| ReferenceGames.TenthClosed | bowling/bowling/score.py:188-199 | a tenth frame of three own rolls opening with a strike or spare is completed |
| ReferenceGames.TenthStrikeLast | bowling/bowling/score.py:38-42 | a tenth-frame strike as the last roll of the input is emitted on its own |
| ReferenceGames.TenthStrikeShort | bowling/bowling/score.py:31-42 | a tenth-frame strike with one roll up to MAX_PINS left holds both as own rolls and is neither completed nor emitted yet |
| ReferenceGames.Refeed | bowling/bowling/score.py:18-33 | the last roll reaching the tenth frame a second time makes three strikes from a second strike, a completed `10, 0, 0` flagged strike and spare scoring 10 from a gutter ball, and a FrameOverflow from a roll of 1 to 9 |
| ReferenceGames.OpenFrame | bowling/bowling/score.py:18-42 | two rolls leaving pins standing make frame k open and emitted after two passes |
| ReferenceGames.SpareFrame | bowling/bowling/score.py:27-42 | a spare in frames 1-9 is emitted after two passes with the following roll as bonus |
| ReferenceGames.TenthSpareFrame | bowling/bowling/score.py:27-42 | a tenth-frame spare is emitted after two passes with the following roll, if any, as third own roll |
| ReferenceGames.StrikeRun | bowling/bowling/score.py:18-42 | on any input opening with k + 2 strikes, the first k frames are emitted as strikes scoring 30 more each |
| ReferenceGames.PerfectGame | bowling/bowling/tests.py:120-135 | twelve or more strikes give nine strike frames scoring 30 to 270 and a tenth frame of three strikes scoring 300 |
| ReferenceGames.PerfectFrames | bowling/bowling/tests.py:175-181 | any input opening with twelve strikes, the test's thirteen included, succeeds with exactly the ten frames of a perfect game rather than an error: whatever follows the twelfth roll is skipped |
| ReferenceGames.OneStrike | bowling/bowling/tests.py:93-99 | a single strike gives frame 1 incomplete, scoring 10 |
| ReferenceGames.TwoStrikes | bowling/bowling/tests.py:101-108 | two strikes give two incomplete frames scoring 20 and 30 |
| ReferenceGames.ThreeStrikes | bowling/bowling/tests.py:110-118 | three strikes give frame 1 complete at 30 and frames 2 and 3 incomplete at 50 and 60 |
| ReferenceGames.ThreeStrikeFrames | bowling/bowling/score.py:27-42 | the frames of three strikes, with the bonus each strike took from the rolls after it |
| ScoreTestCases.DelasportGame | bowling/bowling/tests.py:60-71 | any input with the Delasport rolls gives the ten expected frames, scores 5 to 133 and flags |
| ScoreTestCases.Delasport | bowling/bowling/tests.py:78-83 | the Delasport game generates the expected frames |
| ScoreTestCases.DelasportShortGame | bowling/bowling/tests.py:85-91 | without the last roll, the tenth frame is a spare of two rolls scoring 127, not completed |
| ScoreTestCases.DelasportWithoutLastRoll | bowling/bowling/tests.py:85-91 | the Delasport rolls less the last one generate the expected frames |
| ScoreTestCases.LastFrameOverflowGame | bowling/bowling/score.py:163-166 | a tenth frame of 9 then 9 is refused with FrameOverflow, after nine frames that succeed |
| ScoreTestCases.LastFrameOverflow | bowling/bowling/tests.py:160-165 | the test input ending in 9, 9 fails with FrameOverflow |
| ScoreTestCases.AllSparesGame | bowling/bowling/tests.py:137-152 | ten spares and a bonus roll give the expected frames, scores 12 to 146 |
| ScoreTestCases.AllSpares | bowling/bowling/tests.py:137-152 | the all-spares input generates the expected frames |
| ScoreTestCases.RollOverMaxPins | bowling/bowling/tests.py:154-155 | a roll of MAX_PINS + 1 fails with InvalidPins |
| ScoreTestCases.FrameOverMaxPins | bowling/bowling/tests.py:157-158 | rolls 9 then 2 fail with FrameOverflow |
| ScoreTestCases.OneZeroRun | bowling/bowling/score.py:24-42 | rolls 1, 0 repeated give open frames scoring 1 more each |
| ScoreTestCases.OneZeroGame | bowling/bowling/score.py:19-21 | ten open frames of 1, 0 followed by any roll fail with FramesExceeded |
| ScoreTestCases.MoreThanMaxFrames | bowling/bowling/tests.py:167-173 | the test's twenty-first roll fails with FramesExceeded |
| ScoreTestCases.FiveRun | bowling/bowling/score.py:27-29 | rolls of 5 give spares in frames 1-9, each taking the next 5 as bonus and scoring 15 more |
| ScoreTestCases.FivesGame | bowling/bowling/score.py:18-22 | twenty fives and a strike give nine spares and a tenth frame 5, 5, 10 scoring 155; anything later is skipped |
| ScoreTestCases.SpareStrikeMaxFrames | bowling/bowling/tests.py:183-189 | twenty fives followed by 10, 1 succeed with ten frames rather than an error: the 1 is skipped |

## Left out

- The Django views, serializers and models around the engine, and the REST test case at
  `bowling/bowling/tests.py:192-290`: they store and serve the frames and add no scoring logic.
- Exception messages: each `raise` becomes one constructor of `Frames.Error`, without its text.
- Mutation in place: `Frame` is an immutable snapshot. The counters `_rolls_sum`,
  `_rolls_count`, `_next_rolls_sum` and `_next_rolls_count` are computed from the roll lists
  where they are read.
- The Python properties at `bowling/bowling/score.py:78-140` are plain field reads of the
  datatype.
- Agreement.GenerateAgrees: holds only for games accepted by `Reference.Legal`. That covers
  every roll from 0 to MAX_PINS within the frame caps, except inputs on which the code departs
  from the rules. Those are the repeated last roll after a tenth-frame strike and the tenth
  frame `10, x, y` with `x` from 1 to 9. Their behaviour is stated separately by
  `GeneratorProofs.RefeedStep`, `ReferenceGames.Refeed`, `ReferenceGames.TenthThirdRollFits` and
  `GameProperties.FinalTenth`.
- GameProperties.GenerateScoresNonDecreasing: assumes no negative roll. The code accepts
  negative rolls, and with them a score can go down.
- Generator.Iterate and Generator.Generate: their contracts carry only what the recursion
  needs. What they compute is stated by the lemmas of `GeneratorProofs` and `GameProperties`.
