/**
 * The batch entry points of lib/bowling_game/convenience.rb: check the outer list, feed each
 * roll list to add_frame of a fresh game in order, then score the game or hand it back.
 */
module Convenience {
  import opened Results
  import opened Rolls
  import opened Frames
  import Scorer
  import opened Games

  /** Why a batch was refused: the outer list, or the first frame add_frame refused. */
  datatype BatchError =
    | EmptyInput                 // 'Input cannot be empty'
    | TooManyFrames              // 'Cannot have more than 10 frames'
    | Rejected(reason: GameError)

  /** validate_input!: a non-empty list of at most ten frames. */
  function ValidateInput(data: seq<seq<int>>): (o: Outcome<BatchError>)
    ensures o == Pass <==> 1 <= |data| <= MaxFrames
    ensures |data| == 0 ==> o == Fail(EmptyInput)
  {
    if |data| == 0 then Fail(EmptyInput)
    else if |data| > MaxFrames then Fail(TooManyFrames)
    else Pass
  }

  /** add_frame applied to each roll list in turn, starting from a game holding `frames`. */
  function Replay(frames: seq<Frame>, data: seq<seq<int>>): Result<seq<Frame>, GameError>
    decreases |data|
  {
    if data == [] then Ok(frames)
    else
      match AdmitFrame(frames, data[0])
      case Err(e) => Err(e)
      case Ok(f) => Replay(frames + [f], data[1..])
  }

  /** The frames of the game create_game builds, or the error it raises. */
  function BuildFrames(data: seq<seq<int>>): Result<seq<Frame>, BatchError>
  {
    match ValidateInput(data)
    case Fail(e) => Err(e)
    case Pass =>
      match Replay([], data)
      case Ok(frames) => Ok(frames)
      case Err(e) => Err(Rejected(e))
  }

  /** What score returns for `data`, or the error it raises. */
  function ScoreOf(data: seq<seq<int>>): Result<int, BatchError>
  {
    match BuildFrames(data)
    case Ok(frames) => Ok(Scorer.TotalScore(frames))
    case Err(e) => Err(e)
  }

  // ---------------------------------------------------------------------------
  // The entry points
  // ---------------------------------------------------------------------------

  /** Convenience.score: a fresh game fed every frame, then scored. */
  method Score(data: seq<seq<int>>) returns (r: Result<int, BatchError>)
    ensures r == ScoreOf(data)
    ensures r.Ok? ==> 0 <= r.value <= 300
  {
    var check := ValidateInput(data);
    if check.Fail? {
      return Err(check.error);
    }
    var game := new Game();
    for k := 0 to |data|
      invariant fresh(game) && game.Valid()
      invariant Replay(game.frames, data[k..]) == Replay([], data)
    {
      assert data[k..][0] == data[k] && data[k..][1..] == data[k + 1..];
      var outcome := game.AddFrame(data[k]);
      if outcome.Fail? {
        return Err(Rejected(outcome.error));
      }
    }
    assert data[|data|..] == [];
    var total := game.Score();
    return Ok(total);
  }

  /** Convenience.create_game: the same fresh game, handed back instead of scored. */
  method CreateGame(data: seq<seq<int>>) returns (r: Result<Game, BatchError>)
    ensures match BuildFrames(data)
      case Ok(frames) => r.Ok? && fresh(r.value) && r.value.Valid() && r.value.frames == frames
      case Err(e) => r == Err(e)
  {
    var check := ValidateInput(data);
    if check.Fail? {
      return Err(check.error);
    }
    var game := new Game();
    for k := 0 to |data|
      invariant fresh(game) && game.Valid()
      invariant Replay(game.frames, data[k..]) == Replay([], data)
    {
      assert data[k..][0] == data[k] && data[k..][1..] == data[k + 1..];
      var outcome := game.AddFrame(data[k]);
      if outcome.Fail? {
        return Err(Rejected(outcome.error));
      }
    }
    assert data[|data|..] == [];
    return Ok(game);
  }

  // ---------------------------------------------------------------------------
  // Properties
  // ---------------------------------------------------------------------------

  /** Replay is add_frame applied in order: if each roll list admits the next frame, the replay yields them all. */
  lemma {:induction false} ReplayStepwise(frames: seq<Frame>, data: seq<seq<int>>, added: seq<Frame>)
    requires |added| == |data|
    requires forall k :: 0 <= k < |data| ==> AdmitFrame(frames + added[..k], data[k]) == Ok(added[k])
    ensures Replay(frames, data) == Ok(frames + added)
    decreases |data|
  {
    if data == [] {
      assert frames + added == frames;
    } else {
      assert frames + added[..0] == frames;
      var next := frames + [added[0]];
      forall k | 0 <= k < |data[1..]|
        ensures AdmitFrame(next + added[1..][..k], data[1..][k]) == Ok(added[1..][k])
      {
        assert next + added[1..][..k] == frames + added[..k + 1];
      }
      ReplayStepwise(next, data[1..], added[1..]);
      assert next + added[1..] == frames + added;
    }
  }

  /** ReplayStepwise from a fresh game: roll lists admitted in turn build exactly those frames. */
  lemma ReplayFromEmpty(data: seq<seq<int>>, added: seq<Frame>)
    requires |added| == |data|
    requires forall k :: 0 <= k < |data| ==> AdmitFrame(added[..k], data[k]) == Ok(added[k])
    ensures Replay([], data) == Ok(added)
  {
    forall k | 0 <= k < |data| ensures AdmitFrame([] + added[..k], data[k]) == Ok(added[k]) {
      assert [] + added[..k] == added[..k];
    }
    ReplayStepwise([], data, added);
    assert [] + added == added;
  }

  /** A successful replay appends one frame per roll list and keeps the frames already there. */
  lemma {:induction false} ReplayGrows(frames: seq<Frame>, data: seq<seq<int>>)
    requires Replay(frames, data).Ok?
    ensures |Replay(frames, data).value| == |frames| + |data|
    ensures Replay(frames, data).value[..|frames|] == frames
    decreases |data|
  {
    if data != [] {
      var f := AdmitFrame(frames, data[0]).value;
      ReplayGrows(frames + [f], data[1..]);
      var result := Replay(frames, data).value;
      assert result[..|frames| + 1] == frames + [f];
      assert result[..|frames|] == (frames + [f])[..|frames|];
    }
  }

  /** Replaying onto a well-formed game yields a well-formed game. */
  lemma {:induction false} ReplayWellFormed(frames: seq<Frame>, data: seq<seq<int>>)
    requires WellFormed(frames)
    requires Replay(frames, data).Ok?
    ensures WellFormed(Replay(frames, data).value)
    decreases |data|
  {
    if data != [] {
      AdmitPreservesWellFormed(frames, data[0]);
      ReplayWellFormed(frames + [AdmitFrame(frames, data[0]).value], data[1..]);
    }
  }

  /** With room for every roll list, replay never meets the completed-game error. */
  lemma {:induction false} ReplayNeverFull(frames: seq<Frame>, data: seq<seq<int>>)
    requires |frames| + |data| <= MaxFrames
    ensures Replay(frames, data) != Err(GameComplete)
    decreases |data|
  {
    if data != [] {
      var admitted := AdmitFrame(frames, data[0]);
      assert admitted != Err(GameComplete);
      if admitted.Ok? {
        ReplayNeverFull(frames + [admitted.value], data[1..]);
      }
    }
  }

  /** The first roll list add_frame refuses decides the outcome: its error is the replay's. */
  lemma {:induction false} ReplayPropagates(frames: seq<Frame>, data: seq<seq<int>>, k: nat, before: seq<Frame>)
    requires k < |data|
    requires Replay(frames, data[..k]) == Ok(before)
    requires AdmitFrame(before, data[k]).Err?
    ensures Replay(frames, data) == Err(AdmitFrame(before, data[k]).error)
    decreases k
  {
    assert data[..k] != [] ==> data[..k][0] == data[0] && data[..k][1..] == data[1..][..k - 1];
    if k == 0 {
      assert before == frames;
    } else {
      var f := AdmitFrame(frames, data[0]).value;
      ReplayPropagates(frames + [f], data[1..], k - 1, before);
    }
  }

  /**
   * The batch entry points refuse an empty list and one longer than ten, never report a
   * completed game, and on success build exactly one well-formed frame per roll list.
   */
  lemma BuildFramesFacts(data: seq<seq<int>>)
    ensures BuildFrames(data) == Err(EmptyInput) <==> data == []
    ensures BuildFrames(data) == Err(TooManyFrames) <==> |data| > MaxFrames
    ensures BuildFrames(data) != Err(Rejected(GameComplete))
    ensures BuildFrames(data).Ok? ==> |BuildFrames(data).value| == |data|
    ensures BuildFrames(data).Ok? ==> WellFormed(BuildFrames(data).value)
  {
    if 1 <= |data| <= MaxFrames {
      ReplayNeverFull([], data);
      if Replay([], data).Ok? {
        ReplayGrows([], data);
        ReplayWellFormed([], data);
      }
    }
  }

  /** A batch scores between 0 and 300. */
  lemma ScoreOfBounds(data: seq<seq<int>>)
    requires ScoreOf(data).Ok?
    ensures 0 <= ScoreOf(data).value <= 300
  {
    BuildFramesFacts(data);
    ScoreBounds(BuildFrames(data).value);
  }
}
