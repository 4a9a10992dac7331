# Ten-pin bowling scorer, modelled in Dafny

This project models the `bowling_game` Ruby library, which scores ten-pin bowling, and proves
properties of that model.

- **Frames** (`frame.dfy`, module `Frames`). A frame is an immutable list of rolls tagged
  `Regular`, `Strike`, `Spare` or `Tenth`. Each tag has its own validation rule. The
  constructors `NewRegular`, `NewStrike`, `NewSpare` and `NewTenth` return either the frame or
  the reason the rolls were refused, and they test the same guards in the same order as the
  Ruby constructors. `strike?`, `spare?`, `bonus_multiplier`, `base_score` and `bonus_pins`
  are functions on the datatype.
- **Scorer** (`bowling_scorer.dfy`, module `Scorer`). Each frame scores its own pins plus a
  look-ahead bonus: the next two rolls after a strike and the next one after a spare.
  - The bonus is 0 at index 9 and partial when the frames run out.
  - The two loops of the source, `calculate` and `get_bonus_pins`, are methods with loop
    invariants. Each is proved against a recursive specification (`TotalScore`, `Collect`).
  - The bonus walk is also proved equal to a reference definition: the first k rolls of the
    later frames, flattened.
- **Game** (`game.dfy`, module `Games`). `Game` is a class with fields `frames` and
  `currentFrameIndex`.
  - `AddFrame` checks the raw rolls, then refuses an eleventh frame, then builds the frame
    variant the position and first roll call for, and appends it. The pure function
    `AdmitFrame` specifies it.
  - The class invariant `Valid()` states that the index equals the number of frames, that
    there are at most ten, and that every frame fits its position (`WellFormed`).
- **Batch entry points** (`convenience.dfy`, module `Convenience`). `Score` and `CreateGame`
  check the outer list, feed each roll list to `AddFrame` of a fresh game in order, and then
  score the game or return it. `Replay` is the fold of `AdmitFrame` that specifies their loops.
- **Shared helpers** (`rolls.dfy`). Module `Results` holds the error-carrying results; module
  `Rolls` holds `Sum`, `Take`, the pin range and the constants `MaxPins` (10 pins a frame) and `MaxFrames` (10 frames a game).
- **Worked examples** (`worked_examples.dfy`). The concrete games and frames of the
  repository's specs and example scripts, stated as lemmas. They include 300, 150, 133, 91,
  82, 47 and 38.

Errors are enumerated datatypes (`FrameError`, `GameError`, `BatchError`), one constructor
per message the source raises. An operation that raises in Ruby returns `Err`/`Fail` here.

## Model

| member | source | states |
|---|---|---|
| Rolls.Take | lib/bowling_game/bowling_scorer.rb:70 | `take(k)` yields min(k, length) elements, and they are the prefix of the list |
| Rolls.PinsInRange | lib/bowling_game/game.rb:102-104 | `valid_pin_counts?`: every roll lies in 0..10 (definition, no contract) |
| Frames.BaseScore | lib/bowling_game/frame.rb:18-20 | a frame's own score is the sum of its rolls; for rolls in 0..10 it lies between 0 and 10 per roll |
| Frames.BaseScoreOfValidFrame | lib/bowling_game/frame.rb:135-137 | a valid frame scores 0..10 on its own, Strike and Spare exactly 10, and a Tenth frame, which counts all its rolls, at most 30 |
| Frames.BonusPins | lib/bowling_game/frame.rb:43-45 | `bonus_pins(count)` is the first min(count, length) rolls in their original order; count defaults to 2 |
| Frames.BonusMultiplier | lib/bowling_game/frame.rb:77-79 | 2 for a Strike, 1 for a Spare (frame.rb:101-103), 0 for Regular (frame.rb:36-38) and for Tenth whatever its rolls (frame.rb:130-132) |
| Frames.IsStrike | lib/bowling_game/frame.rb:121-123 | `strike?`: always for Strike (frame.rb:73-75), never for Regular and Spare (frame.rb:24-26), and for Tenth exactly when its first roll is 10 (definition, no contract) |
| Frames.IsSpare | lib/bowling_game/frame.rb:125-127 | `spare?`: always for Spare (frame.rb:97-99), never for Regular and Strike (frame.rb:30-32), and for Tenth exactly when it opens without a strike and its first two rolls make 10 (definition, no contract) |
| Frames.MarksExclusive | lib/bowling_game/frame.rb:121-127 | `strike?` and `spare?` never both hold, for every variant including Tenth |
| Frames.NewRegular | lib/bowling_game/frame.rb:57-63 | accepted iff at most 2 rolls summing to at most 10; more than 2 rolls is reported first |
| Frames.NewStrike | lib/bowling_game/frame.rb:83-87 | accepted iff the rolls are exactly [10]; any other list gets the single strike error |
| Frames.NewSpare | lib/bowling_game/frame.rb:107-111 | accepted iff exactly 2 rolls summing to 10; any other list gets the single spare error |
| Frames.NewTenth | lib/bowling_game/frame.rb:141-203 | accepted iff the tenth-frame rules hold: 1..3 rolls, a lone roll below 10, two non-strike rolls within 10, a third roll only after a strike or spare, and after a strike and a non-strike the last two within 10; a wrong roll count is reported first |
| Frames.TenthRangeChecksRedundant | lib/bowling_game/frame.rb:179-189 | with every roll in 0..10 the two range checks of the tenth frame never fire |
| Scorer.PinsNeeded | lib/bowling_game/bowling_scorer.rb:58 | `pins_needed` is 1 or 2, and 2 exactly for a strike |
| Scorer.TenthFrame | lib/bowling_game/bowling_scorer.rb:76-78 | the scorer's `tenth_frame?`: the frame index is 9 (definition, no contract) |
| Scorer.Collect | lib/bowling_game/bowling_scorer.rb:63-68 | the bonus walk never gathers more pins than it still needs |
| Scorer.CollectStep | lib/bowling_game/bowling_scorer.rb:63-68 | one turn of the loop moves the next frame's `bonus_pins` from the remaining walk onto `pins` |
| Scorer.GetBonusPins | lib/bowling_game/bowling_scorer.rb:57-71 | returns the next 2 rolls after a strike and the next 1 otherwise, in roll order across frame boundaries, or fewer if the frames run out; the loop terminates |
| Scorer.CollectIsNextRolls | lib/bowling_game/bowling_scorer.rb:57-71 | the loop's recursive specification equals the reference "first k rolls of the later frames, flattened" |
| Scorer.CalculateBonusScore | lib/bowling_game/bowling_scorer.rb:45-51 | the bonus is 0 unless the frame is a strike or spare, 0 at index 9, and otherwise the sum of the bonus pins |
| Scorer.BonusIsNextRolls | lib/bowling_game/bowling_scorer.rb:45-51 | a strike earns the sum of the next two rolls and a spare the next one, from whichever later frames hold them; other frames and index 9 earn nothing |
| Scorer.SpareBonusIsNextRoll | lib/bowling_game/bowling_scorer.rb:45-51 | a spare before index 9 earns exactly the first roll of the following frame, when that frame exists and has a roll |
| Scorer.StrikeBonusFromNextFrame | lib/bowling_game/bowling_scorer.rb:45-51 | a strike before index 9 followed by a frame of two or more rolls earns that frame's first two rolls |
| Scorer.StrikeBonusAcrossFrames | lib/bowling_game/bowling_scorer.rb:57-71 | a strike standing before the tenth frame (index 9) and followed by a one-roll frame takes its second bonus roll from the first roll of the frame after that, when that frame has a roll |
| Scorer.PinsNeededIsMultiplier | lib/bowling_game/bowling_scorer.rb:58 | for a Strike or Spare frame (not a Tenth), the number of rolls the walk reaches for is its `bonus_multiplier` |
| Scorer.CalculateFrameScore | lib/bowling_game/bowling_scorer.rb:34-39 | a frame's score is its base score plus its bonus |
| Scorer.Calculate | lib/bowling_game/bowling_scorer.rb:18-26 | the total is the sum over all indices of the frame scores |
| Scorer.EmptyScoresZero | lib/bowling_game/bowling_scorer.rb:18-26 | no frames score 0 |
| Scorer.NoMarksScoresPinTotal | lib/bowling_game/bowling_scorer.rb:45-51 | without strikes or spares the score is exactly the sum of all rolls |
| Games.TenthPosition | lib/bowling_game/game.rb:68-70 | the game's `tenth_frame?`: the next frame goes at index 9 (definition, no contract) |
| Games.ValidateRegularFrameRolls | lib/bowling_game/game.rb:109-115 | up to one roll always passes, more than two fail with the roll-count error, and two pass exactly when they make a valid Regular frame (at most 10 pins) |
| Games.ValidateFrameInput | lib/bowling_game/game.rb:89-97 | no rolls fail with the empty-rolls error; a pass means at least one roll, every roll in 0..10 and, outside index 9, at most two rolls within 10 pins; at index 9 a pass is exactly non-empty in-range rolls |
| Games.CreateFrame | lib/bowling_game/game.rb:54-64 | Tenth at index 9, else `Strike.new` on a first roll of 10, else `Spare.new` on two rolls making 10, else `Regular.new`; a built frame keeps the rolls, is valid for its variant, is a Tenth exactly at index 9 and, elsewhere, a Strike exactly when the first roll is 10 |
| Games.AdmitFrame | lib/bowling_game/game.rb:20-29 | the outcome of `add_frame`: a frame appended is never the eleventh, keeps the rolls and is valid for its variant; no rolls are refused with the empty-rolls error |
| Games.AdmitAcceptsIff | lib/bowling_game/game.rb:20-29 | `add_frame` accepts the rolls iff fewer than 10 frames are down and the rolls are playable at that position: 1 or 2 in-range rolls within 10 pins that do not open with a 10 unless alone, or a valid tenth frame at index 9 |
| Games.AdmitClassifies | lib/bowling_game/game.rb:54-64 | the new frame keeps the given rolls; it is a Tenth iff at index 9, a Strike iff elsewhere and the rolls are [10], and a Spare iff elsewhere with two rolls making 10 without a strike |
| Games.StrikeWithSecondRollRejected | lib/bowling_game/game.rb:109-115 | before index 9, [10, x] is refused: [10, 0] passes the input checks and is refused by the strike constructor, any other x by the pin total |
| Games.CompleteGameRejects | lib/bowling_game/game.rb:119-121 | a full game refuses every roll list; since input checks run first, the completeness error is reported exactly for rolls that pass the non-tenth input checks |
| Games.AdmitPreservesWellFormed | lib/bowling_game/game.rb:20-29 | appending what `add_frame` admits keeps every frame fitting its position and at most ten frames |
| Games.MarksFollowRolls | lib/bowling_game/game.rb:75-84 | in a game, a frame is a strike iff its first roll is 10 and a spare iff two non-strike rolls make 10, whatever its variant |
| Games.FrameScoreBounds | lib/bowling_game/bowling_scorer.rb:34-39 | every frame of a well-formed game scores between 0 and 30 |
| Games.ScoreBounds | lib/bowling_game/game.rb:33-35 | a well-formed game scores between 0 and 30 per frame played, hence at most 300 |
| Games.Game.constructor | lib/bowling_game/game.rb:12-15 | a new game has no frames, index 0, current frame 1 and is not complete |
| Games.Game.IsComplete | lib/bowling_game/game.rb:39-41 | complete iff 10 frames are down, and iff no roll list at all can be added |
| Games.Game.CurrentFrame | lib/bowling_game/game.rb:45-47 | the 1-based number of the next frame, between 1 and 11 |
| Games.Game.AddFrame | lib/bowling_game/game.rb:20-29 | on success appends exactly the admitted frame and advances the index by 1; on failure returns the error and changes nothing; the invariant is kept |
| Games.Game.Score | lib/bowling_game/game.rb:33-35 | the scorer's total over the current frames, between 0 and 30 per frame; changes nothing |
| Convenience.ValidateInput | lib/bowling_game/convenience.rb:31-39 | `validate_input!` passes exactly for 1 to 10 roll lists, and an empty list gets the empty-input error |
| Convenience.Score | lib/bowling_game/convenience.rb:12-18 | the outer-list check, then `add_frame` on each roll list in order, then the score; the first refusal is returned instead |
| Convenience.CreateGame | lib/bowling_game/convenience.rb:23-29 | the same loop, returning a fresh valid game holding exactly the replayed frames |
| Convenience.ReplayStepwise | lib/bowling_game/convenience.rb:16 | if each roll list is admitted in turn, the fold yields exactly those frames appended in order |
| Convenience.ReplayFromEmpty | lib/bowling_game/convenience.rb:16 | from a fresh game, roll lists admitted in turn build exactly those frames |
| Convenience.ReplayGrows | lib/bowling_game/convenience.rb:27 | a successful fold adds one frame per roll list and keeps the earlier frames |
| Convenience.ReplayWellFormed | lib/bowling_game/convenience.rb:16 | the fold keeps a game well formed |
| Convenience.ReplayNeverFull | lib/bowling_game/convenience.rb:31-35 | with room for every roll list the fold never meets the completed-game error |
| Convenience.ReplayPropagates | lib/bowling_game/convenience.rb:16 | the first refused roll list decides the outcome, with its own error |
| Convenience.BuildFramesFacts | lib/bowling_game/convenience.rb:31-35 | an empty list and one longer than 10 are refused with their own errors; the completed-game error never surfaces; success builds one well-formed frame per roll list |
| Convenience.ScoreOfBounds | lib/bowling_game/convenience.rb:12-18 | a batch scores between 0 and 300 |
| WorkedExamples.BonusPinsExamples | spec/bowling_game/frame_spec.rb:37-46 | `bonus_pins(1)` of [3, 4] is [3]; `bonus_pins(2)` and the default are [3, 4] |
| WorkedExamples.FrameConstructorExamples | spec/bowling_game/frame_spec.rb:49-131 | the accepted and refused Regular, Strike and Spare roll lists of the frame specs, each with its error |
| WorkedExamples.TenthFrameExamples | spec/bowling_game/frame_spec.rb:147-216 | the accepted and refused tenth frames of the frame specs, each with its error |
| WorkedExamples.TenthMarksExamples | spec/bowling_game/frame_spec.rb:218-258 | `strike?`, `spare?`, `bonus_multiplier` and `base_score` of the tenth frames of the specs |
| WorkedExamples.OpenFramesExample | spec/bowling_game/bowling_scorer_spec.rb:5-16 | [3,4], [2,5], [1,1] score 16 |
| WorkedExamples.StrikeBonusExample | spec/bowling_game/bowling_scorer_spec.rb:19-30 | a strike then [3, 4] scores 24 |
| WorkedExamples.ConsecutiveStrikesExample | spec/bowling_game/bowling_scorer_spec.rb:32-45 | two strikes then [3, 4] score 47 |
| WorkedExamples.SpareBonusExample | spec/bowling_game/bowling_scorer_spec.rb:49-60 | a spare then [4, 2] scores 20 |
| WorkedExamples.SpareThenStrikeExample | spec/bowling_game/bowling_scorer_spec.rb:62-73 | a spare then a strike scores 30; the strike with nothing after it earns no bonus |
| WorkedExamples.TenthFrameScoringExamples | spec/bowling_game/bowling_scorer_spec.rb:76-114 | tenth frames score all their rolls and earn no bonus: 26, 25 and 22 |
| WorkedExamples.PerfectGameExample | spec/bowling_game/bowling_scorer_spec.rb:117-126 | nine strikes and a tenth frame [10, 10, 10] score 300 |
| WorkedExamples.AllSparesExample | spec/bowling_game/bowling_scorer_spec.rb:128-140 | nine [5, 5] and a tenth frame [5, 5, 5] score 150 |
| WorkedExamples.NinthFrameStrikeExample | spec/bowling_game/bowling_scorer_spec.rb:143-156 | eight [3, 4], a strike and a tenth frame [7, 3, 5] score 91 |
| WorkedExamples.NinthFrameSpareExample | spec/bowling_game/bowling_scorer_spec.rb:158-171 | eight [3, 4], a spare [6, 4] and a tenth frame [7, 2] score 82 |
| WorkedExamples.LoneStrikeExample | spec/bowling_game/bowling_scorer_spec.rb:186-191 | a strike with no following frames scores 10, without error |
| WorkedExamples.AddFrameExamples | spec/bowling_game/game_spec.rb:21-100 | `add_frame` builds Regular, Strike and Spare frames from [3, 4], [10] and [7, 3], and a tenth frame at index 9 |
| WorkedExamples.EleventhFrameExamples | spec/bowling_game/game_spec.rb:80-88 | on a full game [3, 4] gets the completed-game error, but [3, 4, 2] and [11] get their input errors |
| WorkedExamples.DocCommentExample | spec/bowling_game/game_spec.rb:115-123 | [[5,3], [10], [4,6]] scores 38 through the batch entry point |
| WorkedExamples.GutterGameExample | spec/bowling_game/game_spec.rb:147-152 | ten [0, 0] frames score 0 |
| WorkedExamples.MixedGameExample | spec/bowling_game/game_spec.rb:154-170 | the mixed game of the specs and example script scores 133 through the batch entry point |
| WorkedExamples.BatchRejectionExamples | examples/test_all.rb:49-53 | [[11]], [[-1, 5]], [[6, 5]], [[]] and [[3, 4, 2]] are refused with their errors, as are the empty batch and eleven frames |

## Left out

- Ruby's dynamic type checks are not modelled. These are `Rolls must be an array`, `Input must be an array`, `Frame N must be an array`, and the integer check in `valid_pin_counts?`. Rolls are `seq<int>` and a batch is `seq<seq<int>>`, so those checks cannot fail.
- Error message texts and the ArgumentError/StandardError distinction are not modelled. Each message is an error constructor, and the completed-game error is its own constructor `GameComplete`.
- The `Base` frame class is not a variant of `Frame`. The game never builds one, and `Regular` has its default `strike?`, `spare?` and `bonus_multiplier`.
- Freezing and `add_frame` returning `self` for chaining are not modelled. Frames and frame lists are immutable values. `AddFrame` returns the outcome, and the scorer receives the frame list by value.
- `score` copies the frame list (`frames.dup`); that copy is not modelled, because values cannot alias.
- `lib/bowling_game.rb`, `spec/spec_helper.rb`, `test.rb`, `examples/basic_usage.rb` and `examples/error_handling.rb` are not part of this model. They hold wiring, test configuration and console demos. Their expected values are reused only as worked examples.
