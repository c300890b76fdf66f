/**
 * Properties of the frame-by-frame state machine: what one frame does in each
 * phase of a round, and what runs of frames preserve.
 */
module CricketProps {
  import opened Wrappers
  import HandGesture
  import opened CricketRules

  /** No frame of `frames` carries `key`. */
  predicate AvoidsKey(frames: seq<Frame>, key: Key) {
    forall i :: 0 <= i < |frames| ==> frames[i].key != Some(key)
  }

  /** The loop's starting state satisfies the invariant. */
  lemma InitialSatisfiesInv()
    ensures Inv(Initial())
  {
  }

  // ---------------------------------------------------------------- start, restart, round counting

  /** Before Start nothing moves: not the clock, not the round counter, not the scores. */
  lemma IdleUntilStart(s: Snapshot, detection: Option<Hand>, computerChoice: int, key: Option<Key>)
    requires Inv(s) && WellFormedHand(detection)
    requires !s.gameStarted && key != Some(Start)
    ensures Next(s, detection, computerChoice, key) == s
  {
  }

  /** 's' from idle sets the clock to 0 and the same frame advances it to 1; round 0 is the first round. */
  lemma StartBeginsFirstRound(s: Snapshot, detection: Option<Hand>, computerChoice: int)
    requires Inv(s) && WellFormedHand(detection)
    requires !s.gameStarted
    ensures Next(s, detection, computerChoice, Some(Start)) == Initial().(gameStarted := true, clock := 1)
  {
  }

  /** 's' during a game is ignored. */
  lemma StartIgnoredOnceStarted(s: Snapshot, detection: Option<Hand>, computerChoice: int)
    requires Inv(s) && WellFormedHand(detection)
    requires s.gameStarted
    ensures Next(s, detection, computerChoice, Some(Start)) == Next(s, detection, computerChoice, None)
  {
  }

  /** 'n' resets every variable exactly when the match is over by the time keys are read; otherwise it is ignored. */
  lemma RestartOnlyWhenOver(s: Snapshot, detection: Option<Hand>, computerChoice: int)
    requires Inv(s) && WellFormedHand(detection)
    ensures var t := Next(s, detection, computerChoice, None);
            Next(s, detection, computerChoice, Some(Restart)) == if t.gameOver then Initial() else t
    ensures s.gameOver ==> Next(s, detection, computerChoice, Some(Restart)) == Initial()
  {
  }

  /**
   * The round counter grows by one exactly on frames that begin at clock 0 in a
   * started game, and scoring is re-armed only there or by a restart.
   */
  lemma RoundCounter(s: Snapshot, detection: Option<Hand>, computerChoice: int, key: Option<Key>)
    requires Inv(s) && WellFormedHand(detection)
    requires key != Some(Restart)
    ensures var t := Next(s, detection, computerChoice, key);
            t.roundNum == s.roundNum + (if s.clock == 0 && s.gameStarted then 1 else 0)
    ensures var t := Next(s, detection, computerChoice, key);
            s.scoredThisRound && !t.scoredThisRound ==> s.clock == 0 && s.gameStarted
  {
    var p := PhaseLogic(BeginRound(s), detection, computerChoice);
    assert p.roundNum == BeginRound(s).roundNum && p.gameStarted == s.gameStarted;
    assert s.scoredThisRound && !p.scoredThisRound ==> s.clock == 0 && s.gameStarted;
  }

  // ---------------------------------------------------------------- capture and resolution

  /** With a hand in view at clock 15 both moves are recorded, each in {1,2,3,4,6}. */
  lemma CaptureRecordsMoves(s: Snapshot, hand: Hand, computerChoice: int, key: Option<Key>)
    requires Inv(s) && WellFormedHand(Some(hand)) && computerChoice in HandGesture.RunValues
    requires s.gameStarted && s.clock == 15
    ensures var t := Next(s, Some(hand), computerChoice, key);
            t.playerMove == Some(HandGesture.GetHandRun(hand.landmarks, hand.handedness)) &&
            t.computerMove == Some(computerChoice) && t.success &&
            t.playerScore == s.playerScore && t.computerScore == s.computerScore
  {
  }

  /**
   * The outcome of a successful capture. Equal moves dismiss the batting side and
   * end the match in the second innings; otherwise only the batting side scores,
   * by its own move, and in the second innings the match ends as soon as the
   * computer passes the player.
   */
  lemma OutcomeApplied(s: Snapshot, detection: Option<Hand>, computerChoice: int, key: Option<Key>)
    requires Inv(s) && WellFormedHand(detection)
    requires s.gameStarted && 15 < s.clock < 25 && s.success && !s.scoredThisRound
    requires key != Some(Restart)
    ensures s.playerMove.Some? && s.computerMove.Some?
    ensures var t := Next(s, detection, computerChoice, key);
            t.scoredThisRound &&
            (s.playerMove == s.computerMove ==>
               t.isOut && t.gameOver == (s.innings == 2) &&
               t.playerScore == s.playerScore && t.computerScore == s.computerScore) &&
            (s.playerMove != s.computerMove && s.isPlayerBatting ==>
               t.playerScore == s.playerScore + s.playerMove.value &&
               t.computerScore == s.computerScore && !t.isOut && !t.gameOver) &&
            (s.playerMove != s.computerMove && !s.isPlayerBatting ==>
               t.computerScore == s.computerScore + s.computerMove.value &&
               t.playerScore == s.playerScore &&
               (t.gameOver <==> t.computerScore > t.playerScore) && t.isOut == t.gameOver)
  {
  }

  /**
   * Scores only rise, and they (or a dismissal) change only on the frame that
   * applies the round's outcome, which is the frame at clock 16 that sets the guard.
   */
  lemma ScoresChangeOnlyOnApplication(s: Snapshot, detection: Option<Hand>, computerChoice: int, key: Option<Key>)
    requires Inv(s) && WellFormedHand(detection) && computerChoice in HandGesture.RunValues
    requires key != Some(Restart)
    ensures var t := Next(s, detection, computerChoice, key);
            t.playerScore >= s.playerScore && t.computerScore >= s.computerScore
    ensures var t := Next(s, detection, computerChoice, key);
            t.playerScore != s.playerScore || t.computerScore != s.computerScore || (t.isOut && !s.isOut) ==>
              !s.scoredThisRound && t.scoredThisRound && s.success && s.gameStarted && s.clock == 16
  {
    var b := BeginRound(s);
    var p := PhaseLogic(b, detection, computerChoice);
    assert b.playerScore == s.playerScore && b.computerScore == s.computerScore && b.isOut == s.isOut;
    if !(s.gameStarted && 15 < s.clock < 25) {
      assert p.playerScore == s.playerScore && p.computerScore == s.computerScore && (p.isOut ==> s.isOut);
    } else {
      assert p == Resolve(b);
    }
  }

  /** A round is frozen once its outcome is applied, or once its capture failed. */
  predicate Frozen(s: Snapshot) {
    s.scoredThisRound || !s.success
  }

  /** One frame of a frozen round, not at clock 0 and without a restart, changes no score and dismisses no one. */
  lemma FrozenStep(s: Snapshot, detection: Option<Hand>, computerChoice: int, key: Option<Key>)
    requires Inv(s) && WellFormedHand(detection) && computerChoice in HandGesture.RunValues
    requires Frozen(s) && s.clock != 0 && key != Some(Restart)
    ensures var t := Next(s, detection, computerChoice, key);
            t.playerScore == s.playerScore && t.computerScore == s.computerScore &&
            (t.isOut ==> s.isOut) &&
            (key != Some(Quit) && t.clock != 0 ==> Frozen(t))
  {
    var b := BeginRound(s);
    assert b == s;
    var p := PhaseLogic(b, detection, computerChoice);
    assert p.playerScore == s.playerScore && p.computerScore == s.computerScore && (p.isOut ==> s.isOut);
    assert p.gameStarted ==> (p.scoredThisRound || !p.success || p.clock == -1);
  }

  /**
   * At most one application per round: from a frozen state, a run of frames that
   * never starts a frame at clock 0 and never restarts leaves both scores as they
   * were and dismisses no one.
   */
  lemma {:induction false} NoSecondApplication(s: Snapshot, frames: seq<Frame>)
    requires Inv(s) && FramesOk(frames) && AvoidsKey(frames, Restart)
    requires Frozen(s)
    requires forall k :: 0 <= k < |Trace(s, frames)| ==> Trace(s, frames)[k].clock != 0
    ensures var r := Run(s, frames);
            r.playerScore == s.playerScore && r.computerScore == s.computerScore && (r.isOut ==> s.isOut)
    decreases |frames|
  {
    if frames != [] {
      var f := frames[0];
      assert Trace(s, frames)[0] == s;
      FrozenStep(s, f.detection, f.computerChoice, f.key);
      var rest := frames[1..];
      if f.key != Some(Quit) && rest != [] {
        NextPreservesInv(s, f.detection, f.computerChoice, f.key);
        var t := NextFrame(s, f);
        assert Trace(s, frames) == [s] + Trace(t, rest);
        assert Trace(t, rest)[0] == t;
        assert forall k :: 0 <= k < |Trace(t, rest)| ==> Trace(t, rest)[k] == Trace(s, frames)[k + 1];
        assert AvoidsKey(rest, Restart) && FramesOk(rest) by {
          forall i | 0 <= i < |rest| ensures rest[i] == frames[i + 1] { }
        }
        NoSecondApplication(t, rest);
      }
    }
  }

  // ---------------------------------------------------------------- failed capture

  /** No hand at clock 15: the round is marked failed and nothing is recorded or scored. */
  lemma FailedCapture(s: Snapshot, computerChoice: int, key: Option<Key>)
    requires Inv(s) && s.gameStarted && s.clock == 15
    ensures var t := Next(s, None, computerChoice, key);
            !t.success && t.playerMove.None? && t.computerMove.None? &&
            t.playerScore == s.playerScore && t.computerScore == s.computerScore &&
            t.isOut == s.isOut && !t.gameOver && t.scoredThisRound == s.scoredThisRound
  {
  }

  /**
   * A failed round stays inert up to the checkpoint and then advances by itself:
   * the frame at clock 26 returns the clock to 0 with `success` and the moves reset.
   */
  lemma FailedRoundAdvances(s: Snapshot, detection: Option<Hand>, computerChoice: int, key: Option<Key>)
    requires Inv(s) && WellFormedHand(detection)
    requires s.gameStarted && !s.success
    ensures !s.gameOver && !s.isOut
    ensures var t := Next(s, detection, computerChoice, key);
            t.playerScore == s.playerScore && t.computerScore == s.computerScore &&
            !t.isOut && !t.gameOver && t.innings == s.innings
    ensures var t := Next(s, detection, computerChoice, key);
            s.clock <= 25 ==> !t.success && t.scoredThisRound == s.scoredThisRound
    ensures var t := Next(s, detection, computerChoice, key);
            s.clock == 26 && key != Some(Quit) ==>
              t.clock == 0 && t.success && t.playerMove.None? && t.computerMove.None?
  {
  }

  // ---------------------------------------------------------------- checkpoint and end of match

  /** The three verdicts are exclusive and follow the final scores. */
  lemma JudgeCases(playerScore: int, computerScore: int)
    ensures (Judge(playerScore, computerScore) == Won <==> playerScore > computerScore)
    ensures (Judge(playerScore, computerScore) == Lost <==> computerScore > playerScore)
    ensures (Judge(playerScore, computerScore) == Tied <==> playerScore == computerScore)
  {
  }

  /**
   * Clock 25 after a dismissal: in the first innings the computer goes in to bat
   * with the player's score as target; in the second the match ends with a verdict.
   * Without a dismissal the checkpoint changes nothing.
   */
  lemma CheckpointRule(s: Snapshot, detection: Option<Hand>, computerChoice: int, key: Option<Key>)
    requires Inv(s) && WellFormedHand(detection)
    requires s.gameStarted && s.clock == 25 && key != Some(Restart)
    ensures var t := Next(s, detection, computerChoice, key);
            s.isOut && s.innings == 1 ==>
              t.innings == 2 && t.target == Some(s.playerScore) && !t.isPlayerBatting &&
              !t.isOut && !t.gameOver && t.verdict.None?
    ensures var t := Next(s, detection, computerChoice, key);
            s.isOut && s.innings == 2 ==>
              t.gameOver && t.verdict == Some(Judge(s.playerScore, s.computerScore))
    ensures var t := Next(s, detection, computerChoice, key);
            !s.isOut ==>
              t.innings == s.innings && t.target == s.target && t.gameOver == s.gameOver && t.verdict.None?
  {
  }

  /** A live round that passes clock 25 starts over: the same frame leaves the clock at 0. */
  lemma RoundWraps(s: Snapshot, detection: Option<Hand>, computerChoice: int, key: Option<Key>)
    requires Inv(s) && WellFormedHand(detection)
    requires s.gameStarted && !s.gameOver && s.clock > 25 && key != Some(Quit)
    ensures var t := Next(s, detection, computerChoice, key);
            t.clock == 0 && t.playerMove.None? && t.computerMove.None? && t.success &&
            t.roundNum == s.roundNum && t.innings == s.innings
  {
  }

  /** After the match ends the clock climbs to 51 and stops there, never back to 0; nothing scores. */
  lemma GameOverClock(s: Snapshot, detection: Option<Hand>, computerChoice: int, key: Option<Key>)
    requires Inv(s) && WellFormedHand(detection)
    requires s.gameOver && key != Some(Restart) && key != Some(Quit)
    ensures var t := Next(s, detection, computerChoice, key);
            t.gameOver && t.clock == (if s.clock + 1 <= 51 then s.clock + 1 else 51) && t.clock != 0 &&
            t.playerScore == s.playerScore && t.computerScore == s.computerScore
  {
  }

  /**
   * A finished match runs out its clock: after enough frames without a restart or
   * a quit the checkpoint's verdict is on record and agrees with the scores.
   */
  lemma {:induction false} GameOverReachesVerdict(s: Snapshot, frames: seq<Frame>)
    requires Inv(s) && FramesOk(frames) && AvoidsKey(frames, Restart) && AvoidsKey(frames, Quit)
    requires s.gameOver
    ensures var r := Run(s, frames);
            Inv(r) && r.gameOver && r.clock == (if s.clock + |frames| <= 51 then s.clock + |frames| else 51) &&
            r.playerScore == s.playerScore && r.computerScore == s.computerScore
    ensures s.clock + |frames| >= 26 ==>
              Run(s, frames).verdict == Some(Judge(s.playerScore, s.computerScore))
    decreases |frames|
  {
    if frames != [] {
      var f := frames[0];
      assert f.key != Some(Restart) && f.key != Some(Quit);
      NextPreservesInv(s, f.detection, f.computerChoice, f.key);
      GameOverClock(s, f.detection, f.computerChoice, f.key);
      var rest := frames[1..];
      assert AvoidsKey(rest, Restart) && AvoidsKey(rest, Quit) && FramesOk(rest) by {
        forall i | 0 <= i < |rest| ensures rest[i] == frames[i + 1] { }
      }
      GameOverReachesVerdict(NextFrame(s, f), rest);
    }
  }

  /**
   * A successful chase is recorded as a loss: once the computer has passed the
   * player, the checkpoint still runs and announces `Lost`.
   */
  lemma ChaseRecordedAsLoss(s: Snapshot, frames: seq<Frame>)
    requires Inv(s) && FramesOk(frames) && AvoidsKey(frames, Restart) && AvoidsKey(frames, Quit)
    requires s.gameOver && s.computerScore > s.playerScore && s.clock + |frames| >= 26
    ensures Run(s, frames).verdict == Some(Lost)
  {
    GameOverReachesVerdict(s, frames);
  }

  // ---------------------------------------------------------------- whole sessions

  /** Every state reached without quitting satisfies the invariant. */
  lemma {:induction false} RunPreservesInv(s: Snapshot, frames: seq<Frame>)
    requires Inv(s) && FramesOk(frames) && AvoidsKey(frames, Quit)
    ensures Inv(Run(s, frames))
    decreases |frames|
  {
    if frames != [] {
      var f := frames[0];
      assert f.key != Some(Quit);
      NextPreservesInv(s, f.detection, f.computerChoice, f.key);
      var rest := frames[1..];
      assert AvoidsKey(rest, Quit) && FramesOk(rest) by {
        forall i | 0 <= i < |rest| ensures rest[i] == frames[i + 1] { }
      }
      RunPreservesInv(NextFrame(s, f), rest);
    }
  }

  /**
   * In every session from the initial state: the innings is 1 or 2, the target is
   * set exactly in the second innings, which is exactly when the computer bats,
   * the clock stays within 0..26 while the match is live (0..51 after), and a live
   * second innings has the computer at or below the player's score.
   */
  lemma SessionShape(frames: seq<Frame>)
    requires FramesOk(frames) && AvoidsKey(frames, Quit)
    ensures var r := Run(Initial(), frames);
            (r.innings == 1 || r.innings == 2) &&
            (r.target.Some? <==> r.innings == 2) &&
            (r.innings == 2 <==> !r.isPlayerBatting) &&
            0 <= r.clock <= 51 && (!r.gameOver ==> r.clock <= 26) &&
            (r.innings == 2 && !r.gameOver ==> r.computerScore <= r.playerScore) &&
            (r.gameOver ==> r.innings == 2)
  {
    InitialSatisfiesInv();
    RunPreservesInv(Initial(), frames);
  }
}
