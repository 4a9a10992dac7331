/**
 * The game of lib/bowling_game/game.rb: an ordered list of at most ten frames. add_frame
 * validates the raw rolls, refuses an eleventh frame, classifies the rolls by position and
 * first roll (index 9 is always the Tenth frame; elsewhere Strike, then Spare, then Regular)
 * and appends the new frame.
 */
module Games {
  import opened Results
  import opened Rolls
  import opened Frames
  import Scorer

  /** Why add_frame refused its rolls. */
  datatype GameError =
    | EmptyRolls                       // 'Rolls cannot be empty'
    | InvalidPinCount                  // 'Invalid pin count'
    | TooManyRolls                     // 'Regular frames can have at most 2 rolls'
    | TooManyPins                      // 'Cannot knock down more than 10 pins in a frame'
    | GameComplete                     // 'Game is already complete'
    | FrameRejected(reason: FrameError) // raised by the frame constructor

  // ---------------------------------------------------------------------------
  // The private helpers of Game, as functions of the position and the rolls
  // ---------------------------------------------------------------------------

  /** tenth_frame?: the next frame is the last one. */
  predicate TenthPosition(position: nat)
  {
    position == MaxFrames - 1
  }

  /** validate_regular_frame_rolls! */
  function ValidateRegularFrameRolls(rolls: seq<int>): (o: Outcome<GameError>)
    ensures |rolls| <= 1 ==> o == Pass
    ensures |rolls| == 2 ==> (o == Pass <==> ValidRegular(rolls))
    ensures |rolls| > 2 ==> o == Fail(TooManyRolls)
  {
    if |rolls| > 2 then Fail(TooManyRolls)
    else if |rolls| == 2 && Sum(rolls) > MaxPins then Fail(TooManyPins)
    else Pass
  }

  /** validate_frame_input!: the shared checks, then the non-tenth ones. */
  function ValidateFrameInput(position: nat, rolls: seq<int>): (o: Outcome<GameError>)
    ensures |rolls| == 0 ==> o == Fail(EmptyRolls)
    ensures o == Pass ==> |rolls| >= 1 && PinsInRange(rolls)
    ensures o == Pass && !TenthPosition(position) ==> |rolls| <= 2 && Sum(rolls) <= MaxPins
    ensures TenthPosition(position) ==> (o == Pass <==> |rolls| >= 1 && PinsInRange(rolls))
  {
    SumOfShort(rolls);
    if |rolls| == 0 then Fail(EmptyRolls)
    else if !PinsInRange(rolls) then Fail(InvalidPinCount)  // valid_pin_counts?
    else if TenthPosition(position) then Pass
    else ValidateRegularFrameRolls(rolls)
  }

  /** create_frame: Tenth at index 9, else Strike on a first roll of 10, else Spare, else Regular. */
  function CreateFrame(position: nat, rolls: seq<int>): (r: Result<Frame, FrameError>)
    ensures r.Ok? ==> r.value.rolls == rolls && ValidFrame(r.value)
    ensures r.Ok? ==> (r.value.Tenth? <==> TenthPosition(position))
    ensures r.Ok? && !TenthPosition(position) ==> (r.value.Strike? <==> |rolls| >= 1 && rolls[0] == MaxPins)
  {
    if TenthPosition(position) then NewTenth(rolls)
    else if |rolls| > 0 && rolls[0] == MaxPins then NewStrike(rolls)
    else if |rolls| == 2 && Sum(rolls) == MaxPins then NewSpare(rolls)
    else NewRegular(rolls)
  }

  /**
   * What add_frame does to a game holding `frames`: the frame it appends, or the error it
   * raises. Input validation runs before the completeness check.
   */
  function AdmitFrame(frames: seq<Frame>, rolls: seq<int>): (r: Result<Frame, GameError>)
    ensures r.Ok? ==> |frames| != MaxFrames && r.value.rolls == rolls && ValidFrame(r.value)
    ensures |rolls| == 0 ==> r == Err(EmptyRolls)
  {
    match ValidateFrameInput(|frames|, rolls)
    case Fail(e) => Err(e)
    case Pass =>
      if |frames| == MaxFrames then Err(GameComplete)
      else
        match CreateFrame(|frames|, rolls)
        case Ok(f) => Ok(f)
        case Err(e) => Err(FrameRejected(e))
  }

  // ---------------------------------------------------------------------------
  // The rules of the game, stated independently of the guard chains
  // ---------------------------------------------------------------------------

  /** Rolls a bowler may record as the frame at `position`. */
  predicate Playable(position: nat, rolls: seq<int>)
  {
    && |rolls| >= 1
    && PinsInRange(rolls)
    && if position == MaxFrames - 1 then ValidTenth(rolls)
       else |rolls| == 1 || (|rolls| == 2 && rolls[0] < MaxPins && rolls[0] + rolls[1] <= MaxPins)
  }

  /**
   * A frame a game can hold at index i: built from in-range rolls, valid for its variant,
   * Tenth exactly at index 9, and elsewhere a Strike exactly when the first roll is 10 and a
   * Spare exactly when two rolls without a strike make 10.
   */
  predicate FitsAt(f: Frame, i: nat)
  {
    && |f.rolls| >= 1
    && PinsInRange(f.rolls)
    && ValidFrame(f)
    && (f.Tenth? <==> i == MaxFrames - 1)
    && (f.Strike? <==> i != MaxFrames - 1 && f.rolls[0] == MaxPins)
    && (f.Spare? <==> i != MaxFrames - 1 && f.rolls[0] != MaxPins && |f.rolls| == 2
                      && f.rolls[0] + f.rolls[1] == MaxPins)
  }

  /** The invariant of a game's frame list. */
  predicate WellFormed(frames: seq<Frame>)
  {
    && |frames| <= MaxFrames
    && forall i :: 0 <= i < |frames| ==> FitsAt(frames[i], i)
  }

  // ---------------------------------------------------------------------------
  // Properties of add_frame
  // ---------------------------------------------------------------------------

  /** add_frame accepts exactly the playable rolls of a game that is not yet full. */
  lemma AdmitAcceptsIff(frames: seq<Frame>, rolls: seq<int>)
    requires |frames| <= MaxFrames
    ensures AdmitFrame(frames, rolls).Ok? <==> |frames| < MaxFrames && Playable(|frames|, rolls)
  {
    SumOfShort(rolls);
  }

  /**
   * The frame add_frame builds keeps the rolls it was given and its variant is decided by
   * position and first roll: index 9 is Tenth, elsewhere [10] is a Strike, two rolls
   * making 10 a Spare, and anything else Regular.
   */
  lemma AdmitClassifies(frames: seq<Frame>, rolls: seq<int>)
    requires AdmitFrame(frames, rolls).Ok?
    ensures var f := AdmitFrame(frames, rolls).value;
      && f.rolls == rolls
      && FitsAt(f, |frames|)
      && (f.Tenth? <==> |frames| == MaxFrames - 1)
      && (f.Strike? <==> |frames| != MaxFrames - 1 && rolls == [MaxPins])
      && (f.Spare? <==> |frames| != MaxFrames - 1 && |rolls| == 2 && rolls[0] != MaxPins
                        && rolls[0] + rolls[1] == MaxPins)
  {
    SumOfShort(rolls);
  }

  /** Before index 9, two rolls opening with 10 pass the input checks only as [10, 0], which Strike.new then refuses. */
  lemma StrikeWithSecondRollRejected(frames: seq<Frame>, second: int)
    requires |frames| < MaxFrames - 1
    requires 0 <= second <= MaxPins
    ensures AdmitFrame(frames, [MaxPins, second])
            == if second == 0 then Err(FrameRejected(StrikeNotSingleTen)) else Err(TooManyPins)
  {
    SumOfShort([MaxPins, second]);
  }

  /**
   * A full game refuses every frame; rolls that pass the input checks are refused as
   * GameComplete, others with the input error (judged by the non-tenth rules).
   */
  lemma CompleteGameRejects(frames: seq<Frame>, rolls: seq<int>)
    requires |frames| == MaxFrames
    ensures AdmitFrame(frames, rolls).Err?
    ensures AdmitFrame(frames, rolls) == Err(GameComplete)
            <==> && |rolls| >= 1 && PinsInRange(rolls) && |rolls| <= 2
                 && (|rolls| == 2 ==> rolls[0] + rolls[1] <= MaxPins)
  {
    SumOfShort(rolls);
  }

  /** Appending what add_frame admits keeps a game well formed. */
  lemma AdmitPreservesWellFormed(frames: seq<Frame>, rolls: seq<int>)
    requires WellFormed(frames)
    requires AdmitFrame(frames, rolls).Ok?
    ensures WellFormed(frames + [AdmitFrame(frames, rolls).value])
  {
    var f := AdmitFrame(frames, rolls).value;
    AdmitClassifies(frames, rolls);
    var next := frames + [f];
    forall i | 0 <= i < |next| ensures FitsAt(next[i], i) {
      if i < |frames| {
        assert next[i] == frames[i];
      }
    }
  }

  // ---------------------------------------------------------------------------
  // Score bounds of a well-formed game
  // ---------------------------------------------------------------------------

  lemma {:induction false} FlattenInRange(frames: seq<Frame>)
    requires forall i :: 0 <= i < |frames| ==> PinsInRange(frames[i].rolls)
    ensures PinsInRange(Scorer.Flatten(frames))
  {
    if frames != [] {
      FlattenInRange(frames[1..]);
      var a, b := frames[0].rolls, Scorer.Flatten(frames[1..]);
      forall k | 0 <= k < |a + b| ensures 0 <= (a + b)[k] <= MaxPins {
        if k >= |a| {
          assert (a + b)[k] == b[k - |a|];
        }
      }
    }
  }

  /** Every frame of a well-formed game scores between 0 and 30. */
  lemma FrameScoreBounds(frames: seq<Frame>, i: nat)
    requires WellFormed(frames) && i < |frames|
    ensures 0 <= Scorer.FrameScore(frames, i) <= 3 * MaxPins
  {
    var f := frames[i];
    BaseScoreOfValidFrame(f);
    var later := frames[i + 1..];
    forall k | 0 <= k < |later| ensures PinsInRange(later[k].rolls) {
      assert later[k] == frames[i + 1 + k];
    }
    FlattenInRange(later);
    var needed := Scorer.PinsNeeded(f);
    var pins := Take(Scorer.Flatten(later), needed);
    TakeInRange(Scorer.Flatten(later), needed);
    SumBounds(pins);
    Scorer.BonusIsNextRolls(frames, i);
  }

  lemma {:induction false} ScorePrefixBounds(frames: seq<Frame>, n: nat)
    requires WellFormed(frames) && n <= |frames|
    ensures 0 <= Scorer.ScorePrefix(frames, n) <= 3 * MaxPins * n
  {
    if n > 0 {
      ScorePrefixBounds(frames, n - 1);
      FrameScoreBounds(frames, n - 1);
      assert 3 * MaxPins * n == 3 * MaxPins * (n - 1) + 3 * MaxPins;
    }
  }

  /** A well-formed game scores between 0 and 300, and at most 30 per frame played. */
  lemma ScoreBounds(frames: seq<Frame>)
    requires WellFormed(frames)
    ensures 0 <= Scorer.TotalScore(frames) <= 3 * MaxPins * |frames| <= 300
  {
    ScorePrefixBounds(frames, |frames|);
  }

  /**
   * In a well-formed game a frame's strike? and spare? read its rolls alone: a strike is a
   * first roll of 10, a spare two rolls that are not a strike and make 10.
   */
  lemma MarksFollowRolls(f: Frame, i: nat)
    requires FitsAt(f, i)
    ensures IsStrike(f) <==> f.rolls[0] == MaxPins
    ensures IsSpare(f) <==> f.rolls[0] != MaxPins && |f.rolls| >= 2 && f.rolls[0] + f.rolls[1] == MaxPins
  {
    SumOfShort(f.rolls);
  }

  // ---------------------------------------------------------------------------
  // The Game object
  // ---------------------------------------------------------------------------

  class Game {
    var frames: seq<Frame>
    var currentFrameIndex: nat

    ghost predicate Valid()
      reads this
    {
      currentFrameIndex == |frames| && WellFormed(frames)
    }

    /** A new game: no frames, frame 1 next, not complete. */
    constructor ()
      ensures Valid()
      ensures frames == [] && currentFrameIndex == 0
      ensures CurrentFrame() == 1 && !IsComplete()
    {
      frames := [];
      currentFrameIndex := 0;
    }

    /** complete?: ten frames are down, and then no rolls at all can be added. */
    function IsComplete(): (complete: bool)
      reads this
      requires Valid()
      ensures complete <==> currentFrameIndex == MaxFrames
      ensures complete <==> forall rolls :: AdmitFrame(frames, rolls).Err?
    {
      if |frames| == MaxFrames then
        assert forall rolls :: AdmitFrame(frames, rolls).Err?;
        true
      else
        assert AdmitFrame(frames, [0]).Ok? by { AdmitAcceptsIff(frames, [0]); }
        false
    }

    /** current_frame: the 1-based number of the frame to be bowled next. */
    function CurrentFrame(): (number: nat)
      reads this
      requires Valid()
      ensures number == |frames| + 1
      ensures 1 <= number <= MaxFrames + 1
    {
      currentFrameIndex + 1
    }

    /**
     * add_frame: on success appends exactly the admitted frame and advances the index; on
     * failure changes nothing.
     */
    method AddFrame(rolls: seq<int>) returns (outcome: Outcome<GameError>)
      requires Valid()
      modifies this
      ensures Valid()
      ensures match AdmitFrame(old(frames), rolls)
        case Ok(f) =>
          && outcome == Pass
          && frames == old(frames) + [f]
          && currentFrameIndex == old(currentFrameIndex) + 1
        case Err(e) =>
          && outcome == Fail(e)
          && frames == old(frames)
          && currentFrameIndex == old(currentFrameIndex)
    {
      var input := ValidateFrameInput(currentFrameIndex, rolls);
      if input.Fail? {
        return Fail(input.error);
      }
      if IsComplete() {
        return Fail(GameComplete);
      }
      var created := CreateFrame(currentFrameIndex, rolls);
      if created.Err? {
        return Fail(FrameRejected(created.error));
      }
      AdmitPreservesWellFormed(frames, rolls);
      frames := frames + [created.value];
      currentFrameIndex := currentFrameIndex + 1;
      outcome := Pass;
    }

    /** score: the scorer run over the current frames; reads the game and changes nothing. */
    method Score() returns (total: int)
      requires Valid()
      ensures total == Scorer.TotalScore(frames)
      ensures 0 <= total <= 3 * MaxPins * |frames|
    {
      total := Scorer.Calculate(frames);
      ScoreBounds(frames);
    }
  }
}
