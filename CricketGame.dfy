/**
 * The game loop of `play_hand_cricket` as an object: the loop's game-state
 * variables are fields, one frame is `Step`, and the `while True` loop is `Play`.
 */
module CricketGame {
  import opened Wrappers
  import HandGesture
  import opened CricketRules

  class MatchState {
    var clock: int
    var roundNum: int
    var innings: int
    var isPlayerBatting: bool
    var playerScore: int
    var computerScore: int
    var target: Option<int>
    var isOut: bool
    var gameOver: bool
    var scoredThisRound: bool
    var success: bool
    var playerMove: Option<int>
    var computerMove: Option<int>
    var gameStarted: bool
    var verdict: Option<Verdict>

    /** The fields as one value. */
    function State(): Snapshot
      reads this
    {
      Snapshot(clock, roundNum, innings, isPlayerBatting, playerScore, computerScore, target,
               isOut, gameOver, scoredThisRound, success, playerMove, computerMove, gameStarted, verdict)
    }

    predicate Valid()
      reads this
    {
      Inv(State())
    }

    /** The state initialisation before the loop. */
    constructor ()
      ensures State() == Initial() && Valid()
    {
      clock := 0;
      playerMove := None;
      computerMove := None;
      success := true;
      playerScore := 0;
      computerScore := 0;
      scoredThisRound := false;
      isPlayerBatting := true;
      isOut := false;
      innings := 1;
      roundNum := 0;
      gameStarted := false;
      target := None;
      gameOver := false;
      verdict := None;
    }

    /** Round start: a started game whose clock reads 0 counts a new round and re-arms scoring. */
    method BeginRoundStep()
      modifies this
      ensures State() == BeginRound(old(State()))
    {
      if clock == 0 && gameStarted {
        roundNum := roundNum + 1;
        scoredThisRound := false;
      }
    }

    /** Clock 15: classify the hand and draw the computer's move, or mark the round failed. */
    method CaptureStep(detection: Option<Hand>, computerChoice: int)
      requires WellFormedHand(detection)
      modifies this
      ensures State() == Capture(old(State()), detection, computerChoice)
    {
      if detection.Some? {
        var hand := detection.value;
        playerMove := Some(HandGesture.GetHandRun(hand.landmarks, hand.handedness));
        computerMove := Some(computerChoice);
      } else {
        success := false;
      }
    }

    /** Clocks 16..24: apply the round's outcome once, then mark it applied. */
    method ResolveStep()
      requires MovesReady(State())
      modifies this
      ensures State() == Resolve(old(State()))
    {
      if success {
        if !scoredThisRound {
          if playerMove == computerMove {
            isOut := true;
            gameOver := innings == 2;
          } else {
            var run := if isPlayerBatting then playerMove.value else computerMove.value;
            if isPlayerBatting {
              playerScore := playerScore + run;
            } else {
              computerScore := computerScore + run;
              if innings == 2 && computerScore > playerScore {
                isOut := true;
                gameOver := true;
              }
            }
          }
          scoredThisRound := true;
        }
      }
    }

    /** Clock 25: after a dismissal, hand over to the second innings or end the match. */
    method CheckpointStep()
      modifies this
      ensures State() == Checkpoint(old(State()))
    {
      if isOut {
        if innings == 1 {
          target := Some(playerScore);
          isPlayerBatting := false;
          isOut := false;
          innings := innings + 1;
          gameOver := false;
        } else {
          gameOver := true;
          verdict := Some(Judge(playerScore, computerScore));
        }
      }
    }

    /** Clock past 25: unless the match is over, the clock is set to -1 and the round cleared. */
    method AutoAdvanceStep()
      modifies this
      ensures State() == AutoAdvance(old(State()))
    {
      if !gameOver {
        clock := -1;
        playerMove := None;
        computerMove := None;
        success := true;
      }
    }

    /** The clock-keyed game logic. */
    method PhaseStep(detection: Option<Hand>, computerChoice: int)
      requires WellFormedHand(detection)
      requires 15 < clock < 25 ==> MovesReady(State())
      modifies this
      ensures State() == PhaseLogic(old(State()), detection, computerChoice)
    {
      if !gameStarted {
      } else if 0 <= clock < 5 {
        success := true;
      } else if 5 <= clock < 15 {
      } else if clock == 15 {
        CaptureStep(detection, computerChoice);
      } else if 15 < clock < 25 {
        ResolveStep();
      } else if clock == 25 {
        CheckpointStep();
      } else if clock > 25 {
        AutoAdvanceStep();
      }
    }

    /** Start ('s') and Restart ('n'); the quit key is handled by the caller. */
    method KeyStep(key: Option<Key>)
      modifies this
      ensures State() == HandleKey(old(State()), key)
    {
      match key {
        case Some(Start) =>
          if !gameStarted {
            gameStarted := true;
            clock := 0;
          }
        case Some(Restart) =>
          if gameOver {
            Reset();
          }
        case _ =>
      }
    }

    /** Restart ('n'): every game-state variable goes back to its initial value. */
    method Reset()
      modifies this
      ensures State() == Initial()
    {
      playerScore := 0;
      computerScore := 0;
      isPlayerBatting := true;
      innings := 1;
      roundNum := 0;
      clock := 0;
      playerMove := None;
      computerMove := None;
      isOut := false;
      success := true;
      scoredThisRound := false;
      gameStarted := false;
      target := None;
      gameOver := false;
      verdict := None;
    }

    /** The clock runs while a match is live, and up to 51 after it ends. */
    method ClockStep()
      modifies this
      ensures State() == AdvanceClock(old(State()))
    {
      if gameStarted && !gameOver {
        clock := clock + 1;
      } else if gameStarted && gameOver && clock <= 50 {
        clock := clock + 1;
      }
    }

    /**
     * One pass of the loop body: round-start reset, clock-keyed logic, key
     * handling, clock advance. Returns false when 'q' ends the loop, which
     * happens before the key handling and the clock advance.
     */
    method Step(detection: Option<Hand>, computerChoice: int, key: Option<Key>) returns (running: bool)
      requires Valid() && WellFormedHand(detection) && computerChoice in HandGesture.RunValues
      modifies this
      ensures State() == Next(old(State()), detection, computerChoice, key)
      ensures running <==> key != Some(Quit)
      ensures running ==> Valid()
    {
      BeginRoundStep();
      PhaseStep(detection, computerChoice);
      if key == Some(Quit) {
        return false;
      }
      KeyStep(key);
      ClockStep();
      NextPreservesInv(old(State()), detection, computerChoice, key);
      running := true;
    }

    /**
     * The frame loop: steps through `frames` until 'q' is pressed or the
     * frames run out (the camera stops delivering them).
     */
    method Play(frames: seq<Frame>) returns (quit: bool)
      requires Valid() && FramesOk(frames)
      modifies this
      ensures State() == Run(old(State()), frames)
      ensures quit <==> exists k :: 0 <= k < |frames| && frames[k].key == Some(Quit)
      ensures !quit ==> Valid()
    {
      var i := 0;
      quit := false;
      while i < |frames| && !quit
        invariant 0 <= i <= |frames|
        invariant quit ==> i >= 1 && frames[i - 1].key == Some(Quit)
        invariant forall k :: 0 <= k < i - (if quit then 1 else 0) ==> frames[k].key != Some(Quit)
        invariant !quit ==> Valid() && Run(old(State()), frames) == Run(State(), frames[i..])
        invariant quit ==> State() == Run(old(State()), frames)
      {
        var f := frames[i];
        var running := Step(f.detection, f.computerChoice, f.key);
        assert frames[i..][1..] == frames[i + 1..];
        quit := !running;
        i := i + 1;
      }
    }
  }
}
