/**
 * The games and frames the repository's specs and example scripts check, stated as lemmas
 * about the model: spec/bowling_game/frame_spec.rb, bowling_scorer_spec.rb, game_spec.rb and
 * examples/test_all.rb.
 */
module WorkedExamples {
  import opened Results
  import opened Rolls
  import opened Frames
  import opened Scorer
  import opened Games
  import opened Convenience

  // ---------------------------------------------------------------------------
  // Frames
  // ---------------------------------------------------------------------------

  /** bonus_pins takes from the front, two by default. */
  lemma BonusPinsExamples()
    ensures BonusPins(Regular([3, 4]), 1) == [3]
    ensures BonusPins(Regular([3, 4]), 2) == [3, 4]
    ensures BonusPins(Regular([3, 4])) == [3, 4]
  {
  }

  lemma FrameConstructorExamples()
    ensures NewRegular([3, 4]).Ok? && NewRegular([7]).Ok?
    ensures NewRegular([3, 4, 2]) == Err(RegularTooManyRolls)
    ensures NewRegular([6, 5]) == Err(RegularTooManyPins)
    ensures NewStrike([10]).Ok?
    ensures NewStrike([9]) == Err(StrikeNotSingleTen)
    ensures NewStrike([10, 0]) == Err(StrikeNotSingleTen)
    ensures NewSpare([7, 3]).Ok?
    ensures NewSpare([7, 2]) == Err(SpareNotTwoRollsOfTen)
    ensures NewSpare([10]) == Err(SpareNotTwoRollsOfTen)
    ensures NewSpare([5, 5, 0]) == Err(SpareNotTwoRollsOfTen)
  {
    SumOfShort([3, 4]);
    SumOfShort([6, 5]);
    SumOfShort([7, 3]);
    SumOfShort([7, 2]);
  }

  lemma TenthFrameExamples()
    ensures NewTenth([7]).Ok?
    ensures NewTenth([10]) == Err(TenthLoneStrike)
    ensures NewTenth([3, 4]).Ok? && NewTenth([7, 3]).Ok?
    ensures NewTenth([10, 5]).Ok? && NewTenth([10, 10]).Ok?
    ensures NewTenth([6, 5]) == Err(TenthFirstTwoOverTen)
    ensures NewTenth([10, 3, 4]).Ok? && NewTenth([10, 10, 10]).Ok? && NewTenth([10, 7, 3]).Ok?
    ensures NewTenth([7, 3, 5]).Ok? && NewTenth([7, 3, 10]).Ok?
    ensures NewTenth([10, 10, 5]).Ok? && NewTenth([10, 5, 3]).Ok?
    ensures NewTenth([3, 4, 2]) == Err(TenthThirdRollWithoutMark)
    ensures NewTenth([10, 6, 5]) == Err(TenthOverTenAfterStrike)
    ensures NewTenth([10, 10, 10, 10]) == Err(TenthRollCount)
  {
    SumOfShort([3, 4]);
    SumOfShort([7, 3]);
    SumOfShort([6, 5]);
  }

  lemma TenthMarksExamples()
    ensures IsStrike(Tenth([10, 5, 3])) && !IsSpare(Tenth([10, 5, 3]))
    ensures !IsStrike(Tenth([7, 3, 5])) && IsSpare(Tenth([7, 3, 5]))
    ensures !IsSpare(Tenth([7, 2]))
    ensures BonusMultiplier(Tenth([10, 10, 10])) == 0
    ensures BaseScore(Tenth([10, 5, 3])) == 18
  {
    SumOfShort([10, 5, 3]);
  }

  // ---------------------------------------------------------------------------
  // Scorer
  // ---------------------------------------------------------------------------

  /** Strike then [3, 4]: 17 + 7. */
  lemma StrikeBonusExample()
    ensures TotalScore([Strike([10]), Regular([3, 4])]) == 24
  {
    var fs := [Strike([10]), Regular([3, 4])];
    BonusIsNextRolls(fs, 0);
    assert fs[1..] == [Regular([3, 4])];
    SumOfShort([3, 4]);
  }

  /** Two strikes then [3, 4]: 23 + 17 + 7. */
  lemma ConsecutiveStrikesExample()
    ensures TotalScore([Strike([10]), Strike([10]), Regular([3, 4])]) == 47
  {
    var fs := [Strike([10]), Strike([10]), Regular([3, 4])];
    StrikeBonusAcrossFrames(fs, 0);
    StrikeBonusFromNextFrame(fs, 1);
    SumOfShort([3, 4]);
  }

  /** A spare followed by a strike earns 10; the strike with nothing after it earns nothing. */
  lemma SpareThenStrikeExample()
    ensures TotalScore([Spare([7, 3]), Strike([10])]) == 30
  {
    var fs := [Spare([7, 3]), Strike([10])];
    BonusIsNextRolls(fs, 0);
    BonusIsNextRolls(fs, 1);
    assert fs[1..] == [Strike([10])];
    assert fs[2..] == [];
    SumOfShort([7, 3]);
  }

  /** Open frames score their pins: 7 + 7 + 2 and a single [3, 4]. */
  lemma OpenFramesExample()
    ensures TotalScore([Regular([3, 4]), Regular([2, 5]), Regular([1, 1])]) == 16
    ensures TotalScore([Regular([3, 4])]) == 7
  {
    SumOfShort([3, 4]);
    SumOfShort([2, 5]);
    SumOfShort([1, 1]);
  }

  /** A spare earns the next roll: 14 + 6. */
  lemma SpareBonusExample()
    ensures TotalScore([Spare([7, 3]), Regular([4, 2])]) == 20
  {
    SumOfShort([7, 3]);
    SumOfShort([4, 2]);
    SpareBonusIsNextRoll([Spare([7, 3]), Regular([4, 2])], 0);
  }

  /** A Tenth frame scores all its rolls and earns no bonus. */
  lemma TenthFrameScoringExamples()
    ensures TotalScore([Strike([10]), Tenth([5, 3])]) == 26
    ensures TotalScore([Regular([3, 4]), Tenth([10, 5, 3])]) == 25
    ensures TotalScore([Regular([3, 4]), Tenth([7, 3, 5])]) == 22
  {
    SumOfShort([5, 3]);
    SumOfShort([3, 4]);
    SumOfShort([10, 5, 3]);
    SumOfShort([7, 3, 5]);
    StrikeBonusFromNextFrame([Strike([10]), Tenth([5, 3])], 0);
  }

  /** A strike alone scores 10: the bonus is partial, not an error. */
  lemma LoneStrikeExample()
    ensures TotalScore([Strike([10])]) == 10
  {
    BonusIsNextRolls([Strike([10])], 0);
    assert [Strike([10])][1..] == [];
  }

  /** Nine strikes and a Tenth [10, 10, 10]: the perfect game. */
  lemma PerfectGameExample()
    ensures TotalScore(seq(9, _ => Strike([10])) + [Tenth([10, 10, 10])]) == 300
  {
    var fs := seq(9, _ => Strike([10])) + [Tenth([10, 10, 10])];
    SumOfShort([10, 10, 10]);
    SumOfShort([10, 10]);
    forall i | 0 <= i < 9 ensures FrameScore(fs, i) == 30 {
      if i < 8 {
        StrikeBonusAcrossFrames(fs, i);
      } else {
        StrikeBonusFromNextFrame(fs, i);
      }
    }
    assert FrameScore(fs, 9) == 30;
    ScorePrefixConstant(fs, 10, 30);
  }

  /** Nine [5, 5] and a Tenth [5, 5, 5]: 150. */
  lemma AllSparesExample()
    ensures TotalScore(seq(9, _ => Spare([5, 5])) + [Tenth([5, 5, 5])]) == 150
  {
    var fs := seq(9, _ => Spare([5, 5])) + [Tenth([5, 5, 5])];
    SumOfShort([5, 5]);
    SumOfShort([5, 5, 5]);
    forall i | 0 <= i < 9 ensures FrameScore(fs, i) == 15 {
      SpareBonusIsNextRoll(fs, i);
    }
    assert FrameScore(fs, 9) == 15;
    ScorePrefixConstant(fs, 10, 15);
  }

  /** Every one of the first n frames scores `each`, so they score n * each together. */
  lemma {:induction false} ScorePrefixConstant(frames: seq<Frame>, n: nat, each: int)
    requires n <= |frames|
    requires forall i :: 0 <= i < n ==> FrameScore(frames, i) == each
    ensures ScorePrefix(frames, n) == n * each
  {
    if n > 0 {
      ScorePrefixConstant(frames, n - 1, each);
      assert ScorePrefix(frames, n) == (n - 1) * each + each;
      assert (n - 1) * each + each == n * each;
    }
  }

  // ---------------------------------------------------------------------------
  // Batch entry points and Game
  // ---------------------------------------------------------------------------

  /** The doc-comment example of Convenience.score: [[5,3],[10],[4,6]] scores 38. */
  lemma DocCommentExample()
    ensures ScoreOf([[5, 3], [10], [4, 6]]) == Ok(38)
  {
    var data := [[5, 3], [10], [4, 6]];
    var fs := [Regular([5, 3]), Strike([10]), Spare([4, 6])];
    SumOfShort([5, 3]);
    SumOfShort([4, 6]);
    assert AdmitFrame([], [5, 3]) == Ok(fs[0]);
    assert AdmitFrame(fs[..1], [10]) == Ok(fs[1]);
    assert AdmitFrame(fs[..2], [4, 6]) == Ok(fs[2]);
    assert Replay(fs, []) == Ok(fs);
    assert Replay(fs[..2], data[2..]) == Ok(fs) by { assert fs[..2] + [fs[2]] == fs; }
    assert Replay(fs[..1], data[1..]) == Ok(fs) by { assert fs[..1] + [fs[1]] == fs[..2]; }
    assert Replay([], data) == Ok(fs) by { assert [] + [fs[0]] == fs[..1]; }
    BonusIsNextRolls(fs, 1);
    BonusIsNextRolls(fs, 2);
    assert fs[2..] == [Spare([4, 6])];
    assert fs[3..] == [];
  }

  /** add_frame classifies by the rolls before index 9, and builds a Tenth frame at index 9. */
  lemma AddFrameExamples()
    ensures AdmitFrame([], [3, 4]) == Ok(Regular([3, 4]))
    ensures AdmitFrame([], [10]) == Ok(Strike([10]))
    ensures AdmitFrame([], [7, 3]) == Ok(Spare([7, 3]))
    ensures AdmitFrame(seq(9, _ => Regular([3, 4])), [10, 5, 3]) == Ok(Tenth([10, 5, 3]))
  {
    SumOfShort([3, 4]);
    SumOfShort([7, 3]);
    SumOfShort([10, 5, 3]);
  }

  /** Invalid batches from the example scripts and specs are refused, with the first error. */
  lemma BatchRejectionExamples()
    ensures ScoreOf([[11]]) == Err(Rejected(InvalidPinCount))
    ensures ScoreOf([[-1, 5]]) == Err(Rejected(InvalidPinCount))
    ensures ScoreOf([[6, 5]]) == Err(Rejected(TooManyPins))
    ensures ScoreOf([[]]) == Err(Rejected(EmptyRolls))
    ensures ScoreOf([[3, 4, 2]]) == Err(Rejected(TooManyRolls))
    ensures ScoreOf([]) == Err(EmptyInput)
    ensures ScoreOf(seq(11, _ => [3, 4])) == Err(TooManyFrames)
  {
    SumOfShort([6, 5]);
    assert [11][0] > MaxPins;
    assert [-1, 5][0] < 0;
  }

  /** An eleventh frame's error depends on its rolls: input errors are reported first. */
  lemma EleventhFrameExamples(frames: seq<Frame>)
    requires |frames| == MaxFrames
    ensures AdmitFrame(frames, [3, 4]) == Err(GameComplete)
    ensures AdmitFrame(frames, [3, 4, 2]) == Err(TooManyRolls)
    ensures AdmitFrame(frames, [11]) == Err(InvalidPinCount)
  {
    SumOfShort([3, 4]);
    assert [11][0] > MaxPins;
  }

  // ---------------------------------------------------------------------------
  // Whole games
  // ---------------------------------------------------------------------------

  /** Eight [3, 4], a strike in the ninth frame and a Tenth [7, 3, 5]: 91. */
  lemma NinthFrameStrikeExample()
    ensures TotalScore(seq(8, _ => Regular([3, 4])) + [Strike([10]), Tenth([7, 3, 5])]) == 91
  {
    var fs := seq(8, _ => Regular([3, 4])) + [Strike([10]), Tenth([7, 3, 5])];
    SumOfShort([3, 4]);
    SumOfShort([7, 3, 5]);
    forall k | 0 <= k < 8 ensures FrameScore(fs, k) == 7 {
      assert fs[k] == Regular([3, 4]);
    }
    ScorePrefixConstant(fs, 8, 7);
    StrikeBonusFromNextFrame(fs, 8);
    assert FrameScore(fs, 8) == 20;
    assert FrameScore(fs, 9) == 15;
    assert ScorePrefix(fs, 10) == ScorePrefix(fs, 8) + 20 + 15;
  }

  /** Eight [3, 4], a spare in the ninth frame and a Tenth [7, 2]: 82. */
  lemma NinthFrameSpareExample()
    ensures TotalScore(seq(8, _ => Regular([3, 4])) + [Spare([6, 4]), Tenth([7, 2])]) == 82
  {
    var fs := seq(8, _ => Regular([3, 4])) + [Spare([6, 4]), Tenth([7, 2])];
    SumOfShort([3, 4]);
    SumOfShort([6, 4]);
    SumOfShort([7, 2]);
    forall k | 0 <= k < 8 ensures FrameScore(fs, k) == 7 {
      assert fs[k] == Regular([3, 4]);
    }
    ScorePrefixConstant(fs, 8, 7);
    SpareBonusIsNextRoll(fs, 8);
    assert FrameScore(fs, 8) == 17;
    assert FrameScore(fs, 9) == 9;
    assert ScorePrefix(fs, 10) == ScorePrefix(fs, 8) + 17 + 9;
  }

  /** The mixed game of game_spec.rb and test_all.rb, as roll lists and as the frames the game builds. */
  const MixedRolls: seq<seq<int>> :=
    [[1, 4], [4, 5], [6, 4], [5, 5], [10], [0, 1], [7, 3], [6, 4], [10], [2, 8, 6]]
  const MixedFrames: seq<Frame> :=
    [Regular([1, 4]), Regular([4, 5]), Spare([6, 4]), Spare([5, 5]), Strike([10]),
     Regular([0, 1]), Spare([7, 3]), Spare([6, 4]), Strike([10]), Tenth([2, 8, 6])]

  /** add_frame accepts each of the first five roll lists of the mixed game in turn. */
  lemma MixedGameEarlyAdmits()
    ensures forall k :: 0 <= k < 5 ==> AdmitFrame(MixedFrames[..k], MixedRolls[k]) == Ok(MixedFrames[k])
  {
    forall k | 0 <= k < 5 ensures AdmitFrame(MixedFrames[..k], MixedRolls[k]) == Ok(MixedFrames[k]) {
      assert |MixedFrames[..k]| == k;
      SumOfShort(MixedRolls[k]);
    }
  }

  /** add_frame accepts each of the last five roll lists of the mixed game in turn. */
  lemma MixedGameLateAdmits()
    ensures forall k :: 5 <= k < 10 ==> AdmitFrame(MixedFrames[..k], MixedRolls[k]) == Ok(MixedFrames[k])
  {
    forall k | 5 <= k < 10 ensures AdmitFrame(MixedFrames[..k], MixedRolls[k]) == Ok(MixedFrames[k]) {
      assert |MixedFrames[..k]| == k;
      SumOfShort(MixedRolls[k]);
    }
  }

  lemma MixedGameAdmits()
    ensures forall k :: 0 <= k < 10 ==> AdmitFrame(MixedFrames[..k], MixedRolls[k]) == Ok(MixedFrames[k])
  {
    MixedGameEarlyAdmits();
    MixedGameLateAdmits();
  }

  lemma MixedGameFrames()
    ensures Replay([], MixedRolls) == Ok(MixedFrames)
  {
    MixedGameAdmits();
    ReplayFromEmpty(MixedRolls, MixedFrames);
  }

  /** The open frames of the mixed game score their own pins. */
  lemma MixedGameOpenFrames()
    ensures FrameScore(MixedFrames, 0) == 5 && FrameScore(MixedFrames, 1) == 9
    ensures FrameScore(MixedFrames, 5) == 1
  {
    SumOfShort([1, 4]);
    SumOfShort([4, 5]);
    SumOfShort([0, 1]);
  }

  /** The spares in frames 3 and 4 of the mixed game earn the next frame's first roll. */
  lemma MixedGameEarlySpares()
    ensures FrameScore(MixedFrames, 2) == 15 && FrameScore(MixedFrames, 3) == 20
  {
    SumOfShort([6, 4]);
    SumOfShort([5, 5]);
    SpareBonusIsNextRoll(MixedFrames, 2);
    SpareBonusIsNextRoll(MixedFrames, 3);
  }

  /** The spares in frames 7 and 8 of the mixed game earn the next frame's first roll. */
  lemma MixedGameLateSpares()
    ensures FrameScore(MixedFrames, 6) == 16 && FrameScore(MixedFrames, 7) == 20
  {
    SumOfShort([7, 3]);
    SumOfShort([6, 4]);
    SpareBonusIsNextRoll(MixedFrames, 6);
    SpareBonusIsNextRoll(MixedFrames, 7);
  }

  /** The two strikes of the mixed game earn the next two rolls; the Tenth [2, 8, 6] earns nothing. */
  lemma MixedGameStrikes()
    ensures FrameScore(MixedFrames, 4) == 11 && FrameScore(MixedFrames, 8) == 20
    ensures FrameScore(MixedFrames, 9) == 16
  {
    SumOfShort([10]);
    SumOfShort([2, 8, 6]);
    StrikeBonusFromNextFrame(MixedFrames, 4);
    StrikeBonusFromNextFrame(MixedFrames, 8);
  }

  lemma MixedGameTotal()
    ensures TotalScore(MixedFrames) == 133
  {
    MixedGameOpenFrames();
    MixedGameEarlySpares();
    MixedGameLateSpares();
    MixedGameStrikes();
    assert ScorePrefix(MixedFrames, 5) == 60;
  }

  /** The mixed game fed through Convenience.score: 133. */
  lemma MixedGameExample()
    ensures ScoreOf(MixedRolls) == Ok(133)
  {
    MixedGameFrames();
    MixedGameTotal();
  }

  /** Ten gutter frames through Convenience.score: 0. */
  lemma GutterGameExample()
    ensures ScoreOf(seq(10, _ => [0, 0])) == Ok(0)
  {
    var data := seq(10, _ => [0, 0]);
    var fs := seq(9, _ => Regular([0, 0])) + [Tenth([0, 0])];
    SumOfShort([0, 0]);
    forall k | 0 <= k < 10 ensures AdmitFrame(fs[..k], data[k]) == Ok(fs[k]) {
      assert |fs[..k]| == k;
    }
    ReplayFromEmpty(data, fs);
    forall i | 0 <= i < |fs| ensures !IsStrike(fs[i]) && !IsSpare(fs[i]) {
      assert fs[i].rolls == [0, 0];
    }
    NoMarksScoresPinTotal(fs);
    ZeroFramesScoreZero(fs);
  }

  /** Frames whose rolls are all 0 knock down nothing. */
  lemma {:induction false} ZeroFramesScoreZero(frames: seq<Frame>)
    requires forall k :: 0 <= k < |frames| ==> frames[k].rolls == [0, 0]
    ensures Sum(Flatten(frames)) == 0
  {
    if frames != [] {
      ZeroFramesScoreZero(frames[1..]);
      var rest := Flatten(frames[1..]);
      SumAppend([0, 0], rest);
      SumOfShort([0, 0]);
    }
  }
}
