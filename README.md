# Ten-pin bowling scoring, modelled in Dafny

This project models the scoring core of a ten-pin bowling kata: the two kinds
of frame (the nine normal frames and the tenth frame), the rules each applies
when a roll is added to it, the score each frame contributes by looking ahead
to the frames after it, and the `Game` that routes every roll to the current
frame through a progress counter and sums the frames' scores.

- `frame.dfy` (module `Frames`): a frame is a value, `Normal(rolls)` or
  `Tenth(rolls, extra)`, where a roll is its pin count and `extra` is the
  tenth frame's bonus ball. Adding a roll is a pure function that returns the
  new frame or one of the three refusals (`FramePinsExceeded`,
  `ExtraRollWithOpenFrame`, `TenthFrameWithMoreThanThreeRolls`). A frame's
  score reads the frames after it in the game's sequence: the frame after
  frame i is frame i + 1.
- `standard.dfy` (module `StandardRules`): an independent statement of the
  scoring rule on the flat list of pinfalls. A strike scores ten plus the
  next two rolls, a spare ten plus the next roll, an open frame its pins, and
  the tenth frame the sum of its rolls. A bonus whose rolls have not been
  thrown yet counts only the rolls that exist.
- `game.dfy` (module `BowlingGame`): the `Game` class. Its fields are the
  ten frames, the progress counter `frameIndexCount` and the attempt counter
  `rollCount`. `Roll` updates them in place. The invariant `Valid()` holds in
  every reachable state. It says that each frame is well formed for its
  position, and that the frames before the current one are complete. The
  frames after it are empty. Before the tenth frame, the counter equals twice
  the frame index plus the rolls the current frame holds. The main theorem,
  `ScoreMatchesStandard`, says that in every such state the sum of the frame
  scores equals `StandardScore` of the rolls accepted so far.
- `scenarios.dfy` (module `Scenarios`): whole games played through
  `Game.Roll`. They cover the gutter game, the perfect game, an all-open game
  of 90, a spare bonus, a strike bonus, an over-ten refusal and a restart.

## Model

| member | source | states |
|---|---|---|
| Frames.Frame.TotalPins | bowlinggame/model/bowling.py:28-30 | The pins of the recorded rolls: 0 for no roll, the roll itself for one, the two added for two. |
| Frames.Frame.IsStrike | bowlinggame/model/bowling.py:32-33 | A strike is a first roll of all ten pins; a normal strike frame holding its one roll totals ten pins. |
| Frames.Frame.IsSpare | bowlinggame/model/bowling.py:35-36 | A spare holds two rolls that together total ten pins. |
| Frames.AddRoll | bowlinggame/model/bowling.py:38-40 | Adding a roll dispatches on the frame's kind, never changes that kind, and on a well-formed frame either leaves the frame's rolls as they were (a normal frame already holding two) or appends the roll to them. |
| Frames.FrameScore | bowlinggame/model/bowling.py:42-44 | The score dispatches on the frame's kind: an empty frame scores 0, an open normal frame its pins, a well-formed tenth frame the sum of every roll it holds. |
| Frames.AddNormalRoll | bowlinggame/model/bowling.py:64-69 | The roll is refused with FramePinsExceeded exactly when the frame's pins plus the roll exceed ten. Otherwise it is appended while the frame holds fewer than two rolls, and dropped silently (the frame is unchanged) once it holds two. A well-formed normal frame stays well formed. |
| Frames.AddTenthRoll | bowlinggame/model/bowling.py:94-107 | FramePinsExceeded exactly when the frame is neither strike nor spare and the pins would pass ten. The first two rolls are appended. A third is the bonus ball, accepted only after a strike or a spare. ExtraRollWithOpenFrame exactly for a third roll on an open frame. On a well-formed frame, TenthFrameWithMoreThanThreeRolls exactly once the bonus ball is taken, so every other roll is accepted. Accepting keeps the tenth-frame invariant and appends the roll to what the frame holds. |
| Frames.NormalScore | bowlinggame/model/bowling.py:71-86 | A normal frame that is neither a strike nor a spare scores exactly its own pins. |
| Frames.TenthScore | bowlinggame/model/bowling.py:109-113 | A well-formed tenth frame scores the sum of every roll it holds, the bonus ball included. |
| Frames.NormalScoreAtLeastPins | bowlinggame/model/bowling.py:71-86 | With no negative pin counts after it, a normal frame scores at least its own pins: an unresolved bonus adds nothing. |
| BowlingGame.CurrentFrameIndex | bowlinggame/model/bowling.py:137-142 | The current frame is always one of the ten frames. Below the tenth frame it is the counter divided by two (2i <= counter < 2i + 2). From a counter of 18 on it is the tenth frame. |
| BowlingGame.SumScores | bowlinggame/model/bowling.py:170-174 | The sum of the frames' scores from a given frame on; frames holding no roll add nothing, so a game whose remaining frames are empty adds 0. |
| BowlingGame.BonusBallBranchUnreachable | bowlinggame/model/bowling.py:76-81 | In a well-formed game, a strike in the ninth frame followed by one roll in the tenth scores ten plus that roll: the bonus-ball branch at lines 80-81 never adds anything, because the tenth frame takes its bonus ball only after two rolls (lines 99-103). |
| BowlingGame.NewFramesValid | bowlinggame/model/bowling.py:148-160 | Nine empty normal frames followed by an empty tenth frame satisfy the game invariant with the counter at 0 and hold no roll. |
| BowlingGame.StrikeBonus | bowlinggame/model/bowling.py:73-81 | In any valid game, a strike in a normal frame scores ten plus the next two rolls actually thrown, or as many of them as exist, wherever they lie in later frames. |
| BowlingGame.SpareBonus | bowlinggame/model/bowling.py:82-84 | In any valid game, a spare scores ten plus the next roll thrown, if there is one. |
| BowlingGame.FrameScoreStep | bowlinggame/model/bowling.py:71-86 | A non-empty normal frame's score, plus the standard score of the rolls after it, equals the standard score of the rolls from that frame on. |
| BowlingGame.ScoreMatchesStandard | bowlinggame/model/bowling.py:170-174 | In any valid game, the sum of the frame scores from frame i on equals the standard score of the rolls held from frame i on. |
| BowlingGame.RollAppends | bowlinggame/model/bowling.py:162-168 | An accepted roll adds exactly that roll at the end of the game's list of rolls. |
| BowlingGame.RollKeepsValid | bowlinggame/model/bowling.py:162-168 | An accepted roll, with the counter advanced by two after a strike and by one otherwise, preserves the game invariant. |
| BowlingGame.Game.constructor | bowlinggame/model/bowling.py:125-129 | A new game is valid, holds the ten empty frames, both counters at 0, and no roll. |
| BowlingGame.Game.Restart | bowlinggame/model/bowling.py:131-135 | After a restart the game is in exactly the state of a new game. |
| BowlingGame.Game.InitFrames | bowlinggame/model/bowling.py:148-160 | Appends nine empty normal frames and then an empty tenth frame to the frame list. |
| BowlingGame.Game.Roll | bowlinggame/model/bowling.py:162-168 | Every attempt advances the attempt counter. A refused roll returns the frame's error and leaves the frames and the progress counter unchanged. An accepted one replaces only the current frame, advances the counter by two after a strike and by one otherwise, and appends the roll to the accepted rolls. The invariant is preserved. |
| BowlingGame.Game.Score | bowlinggame/model/bowling.py:170-174 | The game's score is the standard score of the rolls accepted so far. |
| BowlingGame.Game.Len | bowlinggame/model/bowling.py:176-177 | The length is the number of roll attempts, refused ones included. |
| Scenarios.PerfectGame | bowlinggame/model/bowling.py:162-177 | Twelve strikes score 300 and the tenth frame alone 30. A thirteenth roll is refused with TenthFrameWithMoreThanThreeRolls, and the length is then 13. |
| Scenarios.GutterGame | bowlinggame/model/bowling.py:94-107 | Twenty gutter balls score 0. A twenty-first roll is refused with ExtraRollWithOpenFrame. |
| Scenarios.NinetyGame | bowlinggame/model/bowling.py:170-174 | Ten open frames of 5 then 4 pins score 90. |
| Scenarios.OverflowRefused | bowlinggame/model/bowling.py:64-66 | Six then six in one frame: the second roll is refused with FramePinsExceeded. The frame keeps only the first six, and both attempts count towards the length. |
| Scenarios.SpareThenThree | bowlinggame/model/bowling.py:82-84 | A spare followed by a 3 scores 13 in the spare frame and 16 in all. |
| Scenarios.StrikeThenThreeFour | bowlinggame/model/bowling.py:73-75 | A strike followed by 3 and 4 scores 17 in the strike frame and 24 in all. |
| Scenarios.RestartThenReplay | bowlinggame/model/bowling.py:131-135 | The same rolls give the same score after a restart as in a new game. |
| Scenarios.OpenFramesScore | bowlinggame/model/bowling.py:71-86 | Open frames of the same two rolls score their pins, n frames giving n times the frame's pins. |

## Left out

- `__str__` of frames (bowling.py:46-58 and 115-119) is left out. It is text rendering for display, not scoring.
- `bowling_errors.py` is not part of this model. Its three exception classes become the three constructors of `BowlingError`. A raise becomes an `Err` result, and a refused roll leaves the frame as it was, as in the source.
- The `Roll` dataclass (bowling.py:9-11) is not kept as a type: a roll is its pin count.
- The abstract `Frame` base class (bowling.py:14-44) becomes one datatype with two variants. The `type(...) is TenthFrame` test becomes the `Tenth?` discriminator.
- The `next_frame` property and its setter (bowling.py:20-26) are replaced by position. The frame after frame i is frame i + 1 of the game's sequence, which is the chain `_init_frames` builds. Frames are values, so aliasing between frame objects is not modelled. Update in place is modelled by reassigning one element of the `frames` sequence.
- `current_frame` (bowling.py:144-146) is `frames[CurrentFrameIndex(frameIndexCount)]`, written inline.
- Pin counts are unbounded integers with no range check, as in the source. A negative pin count is accepted wherever the ten-pin test lets it through.
- BowlingGame.Game.Len: the source's counter is tied to a ghost list of every attempted pin count. That list exists only in the model, to state that refused attempts are counted.
- BowlingGame.Game.Roll: increments the attempt counter before the frame can refuse the roll, so a refused roll still counts towards the length. This follows the code, although a counter of accepted rolls only is the more natural reading of `__len__`.
- BowlingGame.Game.Score: a function on the current state rather than a method. The source's `score` changes nothing.
