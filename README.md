# Hand cricket: gesture classifier and round state machine

This project models the game logic of a camera-controlled hand-cricket game
(`main.py`). Each round the player shows a hand gesture. The gesture is
classified into a run value and played against the computer's move, drawn from
{1, 2, 3, 4, 6}. Equal moves dismiss the batting side. Otherwise the batting
side scores its own move. The player bats first. When the player is out, the
computer chases the player's score. The match ends with a win, a loss or a tie.

Two parts of `main.py` are modelled:

- **`get_hand_run`** (module `HandGesture`). It compares only the vertical
  coordinates of finger tips and joints. The thumb counts 6 when its tip is
  above its own joint and above the index, middle and ring tips. Each other
  finger counts 1 when its tip is above its joint. The sum is clamped to 1..6.
  The model is a set of pure functions. The set of raised fingers serves as an
  independent reference definition.
- **The per-frame state machine** inside the `while True` loop of
  `play_hand_cricket`. Each frame runs four stages in order:
  1. the round-start reset at clock 0;
  2. the logic keyed on the frame clock (lead-in, capture at 15, resolution at
     16..24, checkpoint at 25, auto-advance after 25);
  3. the Start/Restart/Quit keys;
  4. the clock advance.

  This machine appears twice in the project:
  - `CricketRules` is the reference form. Each stage is a function on a
    `Snapshot` of the loop's variables, and `Next` composes the stages.
    `Inv` is the invariant of every state the loop reaches. `Run` and `Trace`
    run sequences of frames.
  - `CricketGame.MatchState` is the imperative form. The loop's variables are
    fields, and each stage is a method that updates them in place. `Step` is
    one frame, and `Play` is the frame loop. Each method is proved equal to its
    reference function.

  `CricketProps` proves the game's rules about the reference form. These include
  the at-most-once application of a round's outcome, the innings handover and
  the end of the match, the clock bounds, failed captures, and Start and
  Restart.

Each frame gets three inputs:
- the detection result, an optional `Hand` with landmarks and handedness;
- the computer's choice, which stands in for `random.choice([1, 2, 3, 4, 6])`
  and must be one of those values;
- an optional key.

Two behaviours of the code are worth stating outright:

- A successful chase shows "Computer Won!" (main.py:455) and also sets
  `is_out` (main.py:456). So the checkpoint at clock 25 still runs and
  announces "You Lost the Game!". `ChaseRecordedAsLoss` proves this.
- Start sets the clock to 0, and the same frame advances it to 1. So the first
  round never begins at clock 0 and keeps round number 0.
  `StartBeginsFirstRound` and `RoundCounter` prove this.

## Model

| member | source | states |
|---|---|---|
| `HandGesture.GetHandRun` | main.py:122-161 | The result is always one of {1,2,3,4,6}. A thumb that is the topmost digit forces 6. Otherwise the result is the number of raised non-thumb fingers, with 0 lifted to 1. |
| `HandGesture.WeightsCountRaised` | main.py:151-158 | The sum of the weights appended for fingers i..4 equals the number of those fingers whose tip is above its joint, and that number is at most 5 - i. |
| `HandGesture.HandednessIgnored` | main.py:122-161 | The handedness label never changes the classification. |
| `HandGesture.AllDownGivesOne` | main.py:143-161 | A pose with every tip at or below its joint is classified as 1. |
| `HandGesture.FourFingersGiveFour` | main.py:151-161 | Four raised fingers without the thumb are classified as 4. |
| `CricketRules.NextPreservesInv` | main.py:390-559 | Every frame that does not quit keeps the invariant. The invariant says: innings is 1 or 2; the target is set and the computer bats exactly in innings 2; the target equals the player's score; in a live second innings the computer's score is at most the player's; the clock stays within 0..26 while the match is live and within 0..51 after it ends; an idle game is in its initial state; the moves are recorded only after clock 15; scoring is guarded from clock 17 to 25; a finished match has a dismissal and a verdict from clock 26 on that agrees with the scores. |
| `CricketProps.InitialSatisfiesInv` | main.py:295-316 | The state before the first frame satisfies the invariant. |
| `CricketProps.IdleUntilStart` | main.py:555-559 | Before Start, a frame without 's' changes nothing, not even the clock. |
| `CricketProps.StartBeginsFirstRound` | main.py:516-519 | 's' in an idle game starts it with clock 1 after the same frame and round number 0. |
| `CricketProps.StartIgnoredOnceStarted` | main.py:516-520 | 's' in a started game has no effect. |
| `CricketProps.RestartOnlyWhenOver` | main.py:521-539 | 'n' returns every variable to its initial value exactly when the match is over at key time. Otherwise 'n' has no effect. |
| `CricketProps.RoundCounter` | main.py:391-393 | Without a restart, the round number grows by one exactly on frames that begin at clock 0 in a started game. Only those frames clear the scoring guard. |
| `CricketProps.CaptureRecordsMoves` | main.py:416-423 | With a hand at clock 15, the player's move is the classified gesture and the computer's move is the drawn value. No score changes. |
| `CricketProps.OutcomeApplied` | main.py:426-459 | On the applying frame, equal moves set `isOut`, and `gameOver` is set iff innings is 2. Otherwise only the batting side scores, by its own move. When the computer bats, the match ends exactly when its score passes the player's. The guard is then set. |
| `CricketProps.ScoresChangeOnlyOnApplication` | main.py:426-459 | Scores never fall. A score change or a new dismissal happens only on the frame at clock 16 that sets the scoring guard. |
| `CricketProps.FrozenStep` | main.py:426-461 | A frame of a round that is already scored or failed, not at clock 0 and not a restart, changes no score, causes no dismissal, and leaves the round frozen. |
| `CricketProps.NoSecondApplication` | main.py:391-461 | A run of frames from a scored or failed round changes no score and causes no dismissal until a frame begins at clock 0 or a restart. So the outcome is applied at most once per round. |
| `CricketProps.FailedCapture` | main.py:418-425 | With no hand at clock 15, `success` becomes false, no move is recorded, and scores, `isOut` and `gameOver` are unchanged. |
| `CricketProps.FailedRoundAdvances` | main.py:460-499 | A failed round never scores or dismisses. Its frame at clock 26 returns the clock to 0, sets `success`, and clears the moves. |
| `CricketProps.JudgeCases` | main.py:479-490 | The verdict is Won, Lost or Tied exactly when the player's score is above, below or equal to the computer's. |
| `CricketProps.CheckpointRule` | main.py:462-490 | At clock 25 after a dismissal in innings 1: target := player's score, innings := 2, the computer bats, and `isOut` and `gameOver` are false. After a dismissal in innings 2: `gameOver` is set with the verdict from the scores. Without a dismissal nothing changes. |
| `CricketProps.RoundWraps` | main.py:491-499 | In a live match, the frame after clock 25 leaves the clock at 0, clears the moves and sets `success`. |
| `CricketProps.GameOverClock` | main.py:555-559 | After the match ends, the clock advances to 51 and stops there. It never returns to 0 and nothing scores. |
| `CricketProps.GameOverReachesVerdict` | main.py:462-490 | After the match ends, frames without 'n' or 'q' keep the scores, advance the clock to clock + frames, capped at 51, and reach the verdict once the clock passes 25. |
| `CricketProps.ChaseRecordedAsLoss` | main.py:453-486 | After a successful chase, the checkpoint still runs and records `Lost`. |
| `CricketProps.RunPreservesInv` | main.py:341-559 | Any run of frames without 'q' keeps the invariant. |
| `CricketProps.SessionShape` | main.py:295-559 | In every session from the initial state: innings is 1 or 2; the target is set iff innings is 2 iff the computer bats; the clock stays within 0..26 while the match is live and within 0..51 after it ends; a live second innings never has the computer ahead. |
| `CricketGame.MatchState.constructor` | main.py:295-316 | The fields start at the loop's initial values. |
| `CricketGame.MatchState.BeginRoundStep` | main.py:391-394 | In-place round-start reset, equal to `BeginRound`. |
| `CricketGame.MatchState.CaptureStep` | main.py:416-425 | In-place capture, equal to `Capture`. |
| `CricketGame.MatchState.ResolveStep` | main.py:426-461 | In-place outcome application, equal to `Resolve`. |
| `CricketGame.MatchState.CheckpointStep` | main.py:462-490 | In-place innings handover or match end, equal to `Checkpoint`. |
| `CricketGame.MatchState.AutoAdvanceStep` | main.py:491-499 | In-place round clearing, equal to `AutoAdvance`. |
| `CricketGame.MatchState.PhaseStep` | main.py:406-499 | In-place clock-keyed logic, equal to `PhaseLogic`. |
| `CricketGame.MatchState.KeyStep` | main.py:512-539 | In-place Start and Restart handling, equal to `HandleKey`. |
| `CricketGame.MatchState.Reset` | main.py:521-539 | Restart puts every field back to its initial value. |
| `CricketGame.MatchState.ClockStep` | main.py:555-559 | In-place clock advance, equal to `AdvanceClock`. |
| `CricketGame.MatchState.Step` | main.py:390-559 | One frame in the loop's order. The new state is `Next` of the old one. The frame reports whether 'q' ended the loop. Without 'q' the invariant is kept. |
| `CricketGame.MatchState.Play` | main.py:341-559 | The frame loop. The final state is `Run` over the frames, and the loop stops at the first 'q'. |

## Left out

- Camera capture, frame flipping and resizing, and hand detection are outside the model. They are I/O and calls into MediaPipe, so each frame takes the detection result as an input. A failed camera read ends the loop, which is modelled as the frames running out in `Play`.
- `random.choice` becomes the `computerChoice` input. It is constrained to {1, 2, 3, 4, 6}, but its distribution is not modelled.
- Sound loading and playback, including `run_sound_playing`, are not modelled because they are audio I/O.
- GIF loading, overlay blending and the celebration triggers are not modelled because they are image I/O and floating-point blending.
- UI drawing, the screen-size query, the model download, debug printing and resource cleanup are not modelled because they are I/O.
- The texts `gametext` and `gameresult` are not modelled. The only text kept is the checkpoint's final announcement, as the `verdict` field (Won, Lost or Tied), which a restart clears.
- The start-up checks for MediaPipe availability and the `KeyboardInterrupt` and exception handling are not modelled because they belong to the surrounding process, not the game rules.
- `HandGesture.GetHandRun` requires at least 21 landmarks. On a shorter list the source would raise IndexError, and the generic handler at main.py:563 would end the session. The detector always supplies 21 landmarks, so the only call site (main.py:419-422) meets the requirement.
- Landmarks are read only through their `y` coordinate, which is compared with `<` and never combined, so it is modelled as `real`.
- `CricketGame.MatchState.Step` promises the invariant only for frames without 'q'. After 'q' the loop has ended before the clock advance, so the clock can be left at -1. Nothing reads that state.
- `CricketRules.Next` requires a state that satisfies the invariant. Every state the loop starts a frame in satisfies it (`RunPreservesInv`). Outside such states, the Python code could compare or add `None` moves.
