/**
 * The four frame variants of lib/bowling_game/frame.rb. A frame is an immutable list of
 * rolls tagged Regular, Strike, Spare or Tenth; each tag has its own validation rule, run
 * when the frame is built, and its own answer to strike?, spare? and bonus_multiplier.
 */
module Frames {
  import opened Results
  import opened Rolls

  datatype Frame =
    | Regular(rolls: seq<int>)
    | Strike(rolls: seq<int>)
    | Spare(rolls: seq<int>)
    | Tenth(rolls: seq<int>)

  /** Why a frame constructor refused its rolls, one reason per raise in frame.rb. */
  datatype FrameError =
    | RegularTooManyRolls          // 'Regular frame cannot have more than 2 rolls'
    | RegularTooManyPins           // 'Cannot knock down more than 10 pins in regular frame'
    | StrikeNotSingleTen           // 'Strike frame must have exactly one roll of 10'
    | SpareNotTwoRollsOfTen        // 'Spare frame must have exactly 2 rolls summing to 10'
    | TenthRollCount               // 'Tenth frame must have 1-3 rolls'
    | TenthLoneStrike              // 'Tenth frame with one roll must be less than 10 (incomplete)'
    | TenthFirstTwoOverTen         // 'First two rolls cannot exceed 10 pins in tenth frame'
    | TenthThirdRollWithoutMark    // 'Tenth frame can only have 3 rolls after strike or spare'
    | TenthSecondRollOutOfRange    // 'Invalid second roll after strike in tenth frame'
    | TenthThirdRollOutOfRange     // 'Invalid third roll after spare in tenth frame'
    | TenthOverTenAfterStrike      // 'Invalid roll combination in tenth frame after strike'

  // ---------------------------------------------------------------------------
  // Queries shared by every variant (Base)
  // ---------------------------------------------------------------------------

  /** Pins knocked down in the frame itself; the Tenth frame counts all of its rolls too. */
  function BaseScore(f: Frame): (score: int)
    ensures PinsInRange(f.rolls) ==> 0 <= score <= MaxPins * |f.rolls|
  {
    SumBounds(f.rolls);
    Sum(f.rolls)
  }

  /** The rolls this frame lends to an earlier strike or spare: its first `count`, in order. */
  function BonusPins(f: Frame, count: nat := 2): (pins: seq<int>)
    ensures |pins| == (if count < |f.rolls| then count else |f.rolls|)
    ensures forall i :: 0 <= i < |pins| ==> pins[i] == f.rolls[i]
  {
    Take(f.rolls, count)
  }

  /** strike?: always for Strike, never for Regular and Spare, on the first roll for Tenth. */
  predicate IsStrike(f: Frame)
  {
    match f
    case Strike(_) => true
    case Tenth(r) => |r| > 0 && r[0] == MaxPins
    case _ => false
  }

  /** spare?: always for Spare, never for Regular and Strike, on the first two rolls for Tenth. */
  predicate IsSpare(f: Frame)
  {
    match f
    case Spare(_) => true
    case Tenth(r) => !IsStrike(f) && |r| >= 2 && r[0] + r[1] == MaxPins
    case _ => false
  }

  /** 2 for a strike, 1 for a spare, 0 otherwise; the Tenth frame lends no bonus. */
  function BonusMultiplier(f: Frame): (m: nat)
    ensures f.Tenth? ==> m == 0
    ensures !f.Tenth? ==> m == (if IsStrike(f) then 2 else if IsSpare(f) then 1 else 0)
  {
    match f
    case Strike(_) => 2
    case Spare(_) => 1
    case _ => 0
  }

  /** strike? and spare? never both hold. */
  lemma MarksExclusive(f: Frame)
    ensures !(IsStrike(f) && IsSpare(f))
  {
  }

  // ---------------------------------------------------------------------------
  // What each variant accepts, stated as the rules of the game
  // ---------------------------------------------------------------------------

  predicate ValidRegular(rolls: seq<int>)
  {
    |rolls| <= 2 && Sum(rolls) <= MaxPins
  }

  predicate ValidStrike(rolls: seq<int>)
  {
    rolls == [MaxPins]
  }

  predicate ValidSpare(rolls: seq<int>)
  {
    |rolls| == 2 && rolls[0] + rolls[1] == MaxPins
  }

  /** The tenth frame's rules, one clause per situation a bowler can be in. */
  predicate ValidTenth(r: seq<int>)
  {
    && 1 <= |r| <= 3
    // a strike alone is an unfinished tenth frame
    && (|r| == 1 ==> r[0] < MaxPins)
    // two rolls without an opening strike share one rack
    && (|r| == 2 && r[0] != MaxPins ==> r[0] + r[1] <= MaxPins)
    // the roll after an opening strike is a fresh rack
    && (|r| == 2 && r[0] == MaxPins ==> 0 <= r[1] <= MaxPins)
    // a third roll is earned by a strike or a spare
    && (|r| == 3 ==> r[0] == MaxPins || r[0] + r[1] == MaxPins)
    // after a strike and a non-strike, the last two rolls share one rack
    && (|r| == 3 && r[0] == MaxPins && r[1] != MaxPins ==> r[1] + r[2] <= MaxPins)
    // after a spare the fill ball is a fresh rack
    && (|r| == 3 && r[0] != MaxPins && r[0] + r[1] == MaxPins ==> 0 <= r[2] <= MaxPins)
  }

  /** The frame satisfies the rule of its own variant. */
  predicate ValidFrame(f: Frame)
  {
    match f
    case Regular(r) => ValidRegular(r)
    case Strike(r) => ValidStrike(r)
    case Spare(r) => ValidSpare(r)
    case Tenth(r) => ValidTenth(r)
  }

  // ---------------------------------------------------------------------------
  // Constructors: Regular.new, Strike.new, Spare.new, Tenth.new
  // ---------------------------------------------------------------------------

  function NewRegular(rolls: seq<int>): (r: Result<Frame, FrameError>)
    ensures r.Ok? <==> ValidRegular(rolls)
    ensures r.Ok? ==> r.value == Regular(rolls)
    ensures |rolls| > 2 ==> r == Err(RegularTooManyRolls)
  {
    SumOfShort(rolls);
    if |rolls| > 2 then Err(RegularTooManyRolls)
    else if Sum(rolls) > MaxPins then Err(RegularTooManyPins)
    else Ok(Regular(rolls))
  }

  function NewStrike(rolls: seq<int>): (r: Result<Frame, FrameError>)
    ensures r.Ok? <==> ValidStrike(rolls)
    ensures r.Ok? ==> r.value == Strike(rolls)
    ensures r.Err? ==> r.error == StrikeNotSingleTen
  {
    if |rolls| == 1 && rolls[0] == MaxPins then Ok(Strike(rolls)) else Err(StrikeNotSingleTen)
  }

  function NewSpare(rolls: seq<int>): (r: Result<Frame, FrameError>)
    ensures r.Ok? <==> ValidSpare(rolls)
    ensures r.Ok? ==> r.value == Spare(rolls)
    ensures r.Err? ==> r.error == SpareNotTwoRollsOfTen
  {
    SumOfShort(rolls);
    if |rolls| == 2 && Sum(rolls) == MaxPins then Ok(Spare(rolls)) else Err(SpareNotTwoRollsOfTen)
  }

  /** Tenth.new: the roll count first, then the checks for one, two or three rolls. */
  function NewTenth(rolls: seq<int>): (r: Result<Frame, FrameError>)
    ensures r.Ok? <==> ValidTenth(rolls)
    ensures r.Ok? ==> r.value == Tenth(rolls)
    ensures !(1 <= |rolls| <= 3) ==> r == Err(TenthRollCount)
  {
    SumOfShort(rolls);
    if !(1 <= |rolls| <= 3) then Err(TenthRollCount)
    else if |rolls| == 1 then
      if rolls[0] >= MaxPins then Err(TenthLoneStrike) else Ok(Tenth(rolls))
    else if |rolls| == 2 then
      if rolls[0] == MaxPins then
        if 0 <= rolls[1] <= MaxPins then Ok(Tenth(rolls)) else Err(TenthSecondRollOutOfRange)
      else if Sum(rolls) > MaxPins then Err(TenthFirstTwoOverTen)
      else Ok(Tenth(rolls))
    else if rolls[0] == MaxPins then
      if rolls[1] == MaxPins then Ok(Tenth(rolls))
      else if rolls[1] + rolls[2] > MaxPins then Err(TenthOverTenAfterStrike)
      else Ok(Tenth(rolls))
    else if rolls[0] + rolls[1] == MaxPins then
      if 0 <= rolls[2] <= MaxPins then Ok(Tenth(rolls)) else Err(TenthThirdRollOutOfRange)
    else Err(TenthThirdRollWithoutMark)
  }

  /** Rolls within 0..10 never trip the two range checks of Tenth.new. */
  lemma TenthRangeChecksRedundant(rolls: seq<int>)
    requires PinsInRange(rolls)
    ensures NewTenth(rolls) != Err(TenthSecondRollOutOfRange)
    ensures NewTenth(rolls) != Err(TenthThirdRollOutOfRange)
  {
  }

  /** A valid frame of rolls in range scores at most 10 on its own, or 30 for the Tenth. */
  lemma BaseScoreOfValidFrame(f: Frame)
    requires ValidFrame(f) && PinsInRange(f.rolls)
    ensures 0 <= BaseScore(f)
    ensures !f.Tenth? ==> BaseScore(f) <= MaxPins
    ensures f.Strike? || f.Spare? ==> BaseScore(f) == MaxPins
    ensures BaseScore(f) <= 3 * MaxPins
  {
    SumOfShort(f.rolls);
  }
}
