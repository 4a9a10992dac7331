/**
 * The scorer of lib/bowling_game/bowling_scorer.rb. Each frame scores its own pins plus a
 * look-ahead bonus: the next two rolls after a strike, the next one after a spare, taken in
 * roll order from the frames that follow and cut short when the frames run out. The frame at
 * index 9 receives no bonus. The methods are the source's loops; the functions beside them
 * are their specifications.
 */
module Scorer {
  import opened Rolls
  import opened Frames

  // ---------------------------------------------------------------------------
  // Specification
  // ---------------------------------------------------------------------------

  /** All rolls of the frames, in the order they were bowled. */
  function Flatten(frames: seq<Frame>): seq<int>
  {
    if frames == [] then [] else frames[0].rolls + Flatten(frames[1..])
  }

  /** pins_needed in get_bonus_pins: two rolls for a strike, one otherwise. */
  function PinsNeeded(f: Frame): (n: nat)
    ensures 1 <= n <= 2 && (n == 2 <==> IsStrike(f))
  {
    if IsStrike(f) then 2 else 1
  }

  /** tenth_frame? of the scorer: the index of the last frame of a game. */
  predicate TenthFrame(frameIndex: nat)
  {
    frameIndex == MaxFrames - 1
  }

  /**
   * What get_bonus_pins's loop gathers when it stands at frame j still wanting `remaining`
   * pins: what frame j lends, then the rest from the frames after it.
   */
  function Collect(frames: seq<Frame>, j: nat, remaining: nat): (pins: seq<int>)
    decreases |frames| - j
    ensures |pins| <= remaining
  {
    if remaining == 0 || j >= |frames| then []
    else
      var available := BonusPins(frames[j], remaining);
      available + Collect(frames, j + 1, remaining - |available|)
  }

  /** calculate_bonus_score: the pins a strike or spare earns from later frames. */
  function Bonus(frames: seq<Frame>, frameIndex: nat): int
    requires frameIndex < |frames|
  {
    var f := frames[frameIndex];
    if !(IsStrike(f) || IsSpare(f)) then 0
    else if TenthFrame(frameIndex) then 0
    else Sum(Collect(frames, frameIndex + 1, PinsNeeded(f)))
  }

  /** calculate_frame_score: the frame's own pins plus its bonus. */
  function FrameScore(frames: seq<Frame>, frameIndex: nat): int
    requires frameIndex < |frames|
  {
    BaseScore(frames[frameIndex]) + Bonus(frames, frameIndex)
  }

  /** The scores of the first n frames, added up. */
  function ScorePrefix(frames: seq<Frame>, n: nat): int
    requires n <= |frames|
  {
    if n == 0 then 0 else ScorePrefix(frames, n - 1) + FrameScore(frames, n - 1)
  }

  /** calculate: the scores of all frames, added up. */
  function TotalScore(frames: seq<Frame>): int
  {
    ScorePrefix(frames, |frames|)
  }

  // ---------------------------------------------------------------------------
  // The source's loops
  // ---------------------------------------------------------------------------

  /** get_bonus_pins: the next PinsNeeded rolls after frame frameIndex, or fewer if none follow. */
  method GetBonusPins(frames: seq<Frame>, frameIndex: nat) returns (pins: seq<int>)
    requires frameIndex < |frames|
    ensures pins == Take(Flatten(frames[frameIndex + 1..]), PinsNeeded(frames[frameIndex]))
  {
    var pinsNeeded := if IsStrike(frames[frameIndex]) then 2 else 1;
    pins := [];
    var currentFrameIndex := frameIndex + 1;
    while |pins| < pinsNeeded && currentFrameIndex < |frames|
      invariant frameIndex + 1 <= currentFrameIndex <= |frames|
      invariant |pins| <= pinsNeeded
      invariant pins + Collect(frames, currentFrameIndex, pinsNeeded - |pins|)
                == Collect(frames, frameIndex + 1, pinsNeeded)
      decreases |frames| - currentFrameIndex
    {
      var nextFrame := frames[currentFrameIndex];
      var availablePins := BonusPins(nextFrame, pinsNeeded - |pins|);
      CollectStep(frames, currentFrameIndex, pins, pinsNeeded);
      var grown := pins + availablePins;
      assert grown + Collect(frames, currentFrameIndex + 1, pinsNeeded - |grown|)
             == Collect(frames, frameIndex + 1, pinsNeeded);
      pins := grown;
      currentFrameIndex := currentFrameIndex + 1;
    }
    assert Collect(frames, currentFrameIndex, pinsNeeded - |pins|) == [];
    assert pins + [] == pins;
    assert pins == Collect(frames, frameIndex + 1, pinsNeeded);
    assert pinsNeeded == PinsNeeded(frames[frameIndex]);
    CollectIsNextRolls(frames, frameIndex + 1, pinsNeeded);
    pins := Take(pins, pinsNeeded);
  }

  method CalculateBonusScore(frames: seq<Frame>, frameIndex: nat) returns (bonus: int)
    requires frameIndex < |frames|
    ensures bonus == Bonus(frames, frameIndex)
  {
    var frame := frames[frameIndex];
    if !(IsStrike(frame) || IsSpare(frame)) {
      return 0;
    }
    if TenthFrame(frameIndex) {
      return 0;
    }
    var bonusPins := GetBonusPins(frames, frameIndex);
    CollectIsNextRolls(frames, frameIndex + 1, PinsNeeded(frame));
    bonus := Sum(bonusPins);
  }

  method CalculateFrameScore(frames: seq<Frame>, frameIndex: nat) returns (score: int)
    requires frameIndex < |frames|
    ensures score == FrameScore(frames, frameIndex)
  {
    var baseScore := BaseScore(frames[frameIndex]);
    var bonusScore := CalculateBonusScore(frames, frameIndex);
    score := baseScore + bonusScore;
  }

  /** calculate: accumulates every frame's score in one pass. */
  method Calculate(frames: seq<Frame>) returns (totalScore: int)
    ensures totalScore == TotalScore(frames)
  {
    totalScore := 0;
    for index := 0 to |frames|
      invariant totalScore == ScorePrefix(frames, index)
    {
      var frameScore := CalculateFrameScore(frames, index);
      totalScore := totalScore + frameScore;
    }
  }

  // ---------------------------------------------------------------------------
  // Properties
  // ---------------------------------------------------------------------------

  /** One turn of get_bonus_pins's loop moves frame j's pins from the walk onto `pins`. */
  lemma CollectStep(frames: seq<Frame>, j: nat, pins: seq<int>, pinsNeeded: nat)
    requires j < |frames| && |pins| < pinsNeeded
    ensures var next := pins + BonusPins(frames[j], pinsNeeded - |pins|);
      pins + Collect(frames, j, pinsNeeded - |pins|)
      == next + Collect(frames, j + 1, pinsNeeded - |next|)
  {
    var available := BonusPins(frames[j], pinsNeeded - |pins|);
    var later := Collect(frames, j + 1, pinsNeeded - |pins| - |available|);
    assert Collect(frames, j, pinsNeeded - |pins|) == available + later;
    assert pins + (available + later) == (pins + available) + later;
  }

  lemma FlattenSplit(frames: seq<Frame>, j: nat)
    requires j < |frames|
    ensures Flatten(frames[j..]) == frames[j].rolls + Flatten(frames[j + 1..])
  {
    assert frames[j..][0] == frames[j];
    assert frames[j..][1..] == frames[j + 1..];
  }

  lemma {:induction false} FlattenAppend(frames: seq<Frame>, f: Frame)
    ensures Flatten(frames + [f]) == Flatten(frames) + f.rolls
  {
    if frames == [] {
      assert [f][1..] == [];
    } else {
      assert (frames + [f])[1..] == frames[1..] + [f];
      FlattenAppend(frames[1..], f);
    }
  }

  /**
   * The bonus walk is the reference "next k rolls": it yields exactly the first `remaining`
   * rolls bowled from frame j on, in order, across frame boundaries, or all of them if fewer.
   */
  lemma {:induction false} CollectIsNextRolls(frames: seq<Frame>, j: nat, remaining: nat)
    requires j <= |frames|
    ensures Collect(frames, j, remaining) == Take(Flatten(frames[j..]), remaining)
    decreases |frames| - j
  {
    if remaining == 0 {
    } else if j == |frames| {
      assert frames[j..] == [];
    } else {
      var rolls := frames[j].rolls;
      var rest := Flatten(frames[j + 1..]);
      FlattenSplit(frames, j);
      TakeAppend(rolls, rest, remaining);
      assert BonusPins(frames[j], remaining) == Take(rolls, remaining);
      CollectIsNextRolls(frames, j + 1, remaining - |Take(rolls, remaining)|);
    }
  }

  /**
   * A strike earns the next two rolls and a spare the next one, whichever frames they lie in;
   * frames that are neither, and the frame at index 9, earn nothing.
   */
  lemma BonusIsNextRolls(frames: seq<Frame>, frameIndex: nat)
    requires frameIndex < |frames|
    ensures var f := frames[frameIndex];
      Bonus(frames, frameIndex)
      == if (IsStrike(f) || IsSpare(f)) && frameIndex != MaxFrames - 1
         then Sum(Take(Flatten(frames[frameIndex + 1..]), if IsStrike(f) then 2 else 1))
         else 0
  {
    CollectIsNextRolls(frames, frameIndex + 1, PinsNeeded(frames[frameIndex]));
  }

  /** A spare before the frame at index 9 earns the first roll of the frame after it. */
  lemma SpareBonusIsNextRoll(frames: seq<Frame>, frameIndex: nat)
    requires frameIndex + 1 < |frames| && frameIndex != MaxFrames - 1
    requires IsSpare(frames[frameIndex]) && |frames[frameIndex + 1].rolls| >= 1
    ensures Bonus(frames, frameIndex) == frames[frameIndex + 1].rolls[0]
  {
    var next := frames[frameIndex + 1].rolls;
    MarksExclusive(frames[frameIndex]);
    BonusIsNextRolls(frames, frameIndex);
    FlattenSplit(frames, frameIndex + 1);
    TakeAppend(next, Flatten(frames[frameIndex + 2..]), 1);
    assert Take(next, 1) == [next[0]];
  }

  /** A strike before the frame at index 9 earns the first two rolls of the frame after it, when it has two. */
  lemma StrikeBonusFromNextFrame(frames: seq<Frame>, frameIndex: nat)
    requires frameIndex + 1 < |frames| && frameIndex != MaxFrames - 1
    requires IsStrike(frames[frameIndex]) && |frames[frameIndex + 1].rolls| >= 2
    ensures Bonus(frames, frameIndex) == frames[frameIndex + 1].rolls[0] + frames[frameIndex + 1].rolls[1]
  {
    var next := frames[frameIndex + 1].rolls;
    BonusIsNextRolls(frames, frameIndex);
    FlattenSplit(frames, frameIndex + 1);
    var later := Flatten(frames[frameIndex + 2..]);
    TakeAppend(next, later, 2);
    assert Take(next, 2) == [next[0], next[1]];
    assert Take(later, 0) == [];
    assert Take(next + later, 2) == [next[0], next[1]];
    SumOfShort([next[0], next[1]]);
  }

  /**
   * A strike followed by a frame of one roll reaches into the frame after that for its
   * second bonus roll.
   */
  lemma StrikeBonusAcrossFrames(frames: seq<Frame>, frameIndex: nat)
    requires frameIndex + 2 < |frames| && frameIndex != MaxFrames - 1
    requires IsStrike(frames[frameIndex])
    requires |frames[frameIndex + 1].rolls| == 1 && |frames[frameIndex + 2].rolls| >= 1
    ensures Bonus(frames, frameIndex)
            == frames[frameIndex + 1].rolls[0] + frames[frameIndex + 2].rolls[0]
  {
    var next := frames[frameIndex + 1].rolls;
    var after := frames[frameIndex + 2].rolls;
    BonusIsNextRolls(frames, frameIndex);
    FlattenSplit(frames, frameIndex + 1);
    FlattenSplit(frames, frameIndex + 2);
    var rest := Flatten(frames[frameIndex + 1..]);
    assert rest == next + (after + Flatten(frames[frameIndex + 3..]));
    assert rest[0] == next[0] && rest[1] == after[0];
    assert Take(rest, 2) == [next[0], after[0]];
    SumOfShort([next[0], after[0]]);
  }

  /** The number of rolls a bonus reaches for is the frame's bonus_multiplier. */
  lemma PinsNeededIsMultiplier(f: Frame)
    requires !f.Tenth? && (IsStrike(f) || IsSpare(f))
    ensures PinsNeeded(f) == BonusMultiplier(f)
  {
  }

  /** Nothing to score gives 0. */
  lemma EmptyScoresZero()
    ensures TotalScore([]) == 0
  {
  }

  /** Without strikes or spares, a game scores exactly the pins it knocked down. */
  lemma NoMarksScoresPinTotal(frames: seq<Frame>)
    requires forall i :: 0 <= i < |frames| ==> !IsStrike(frames[i]) && !IsSpare(frames[i])
    ensures TotalScore(frames) == Sum(Flatten(frames))
  {
    NoMarksPrefix(frames, |frames|);
    assert frames[..|frames|] == frames;
  }

  lemma {:induction false} NoMarksPrefix(frames: seq<Frame>, n: nat)
    requires n <= |frames|
    requires forall i :: 0 <= i < |frames| ==> !IsStrike(frames[i]) && !IsSpare(frames[i])
    ensures ScorePrefix(frames, n) == Sum(Flatten(frames[..n]))
  {
    if n > 0 {
      NoMarksPrefix(frames, n - 1);
      assert frames[..n] == frames[..n - 1] + [frames[n - 1]];
      FlattenAppend(frames[..n - 1], frames[n - 1]);
      SumAppend(Flatten(frames[..n - 1]), frames[n - 1].rolls);
    }
  }
}
