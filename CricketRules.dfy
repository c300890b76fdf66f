/**
 * The per-frame round and innings state machine of `play_hand_cricket`.
 *
 * Each camera frame runs, in this order: the round-start reset, the logic keyed
 * on the frame clock, the key handling and the clock advance. Here each of those
 * stages is a function on a `Snapshot` of the loop's variables, and `Next` is
 * their composition. Detection, the computer's random choice and the pressed key
 * are inputs of the frame.
 */
module CricketRules {
  import opened Wrappers
  import HandGesture

  /** The keys the loop reacts to: 's' starts, 'n' restarts, 'q' quits. */
  datatype Key = Start | Restart | Quit

  /** The first hand the detector reports: its landmarks and handedness label. */
  datatype Hand = Hand(landmarks: seq<HandGesture.Landmark>, handedness: string)

  /** The outcome the end-of-match checkpoint announces. */
  datatype Verdict = Won | Lost | Tied

  /** The game-state variables of the loop, plus the announced verdict. */
  datatype Snapshot = Snapshot(
    clock: int,
    roundNum: int,
    innings: int,
    isPlayerBatting: bool,
    playerScore: int,
    computerScore: int,
    target: Option<int>,
    isOut: bool,
    gameOver: bool,
    scoredThisRound: bool,
    success: bool,
    playerMove: Option<int>,
    computerMove: Option<int>,
    gameStarted: bool,
    verdict: Option<Verdict>)

  /** The values the variables hold before the first frame, and again after a restart. */
  function Initial(): Snapshot {
    Snapshot(
      clock := 0, roundNum := 0, innings := 1, isPlayerBatting := true,
      playerScore := 0, computerScore := 0, target := None,
      isOut := false, gameOver := false, scoredThisRound := false, success := true,
      playerMove := None, computerMove := None, gameStarted := false, verdict := None)
  }

  /** What one frame receives from outside the state machine. */
  datatype Frame = Frame(detection: Option<Hand>, computerChoice: int, key: Option<Key>)

  predicate WellFormedHand(detection: Option<Hand>) {
    detection.Some? ==> HandGesture.IsPose(detection.value.landmarks)
  }

  /** A detection the classifier can read, and a computer move drawn from {1,2,3,4,6}. */
  predicate FrameOk(f: Frame) {
    WellFormedHand(f.detection) && f.computerChoice in HandGesture.RunValues
  }

  predicate FramesOk(frames: seq<Frame>) {
    forall k :: 0 <= k < |frames| ==> FrameOk(frames[k])
  }

  function Judge(playerScore: int, computerScore: int): Verdict {
    if playerScore > computerScore then Won
    else if computerScore > playerScore then Lost
    else Tied
  }

  /** Round start: a started game whose clock reads 0 counts a new round and re-arms scoring. */
  function BeginRound(s: Snapshot): Snapshot {
    if s.clock == 0 && s.gameStarted then
      s.(roundNum := s.roundNum + 1, scoredThisRound := false)
    else s
  }

  /** Clock 15: classify the hand and draw the computer's move, or mark the round failed. */
  function Capture(s: Snapshot, detection: Option<Hand>, computerChoice: int): Snapshot
    requires WellFormedHand(detection)
  {
    match detection
    case Some(hand) =>
      s.(playerMove := Some(HandGesture.GetHandRun(hand.landmarks, hand.handedness)),
         computerMove := Some(computerChoice))
    case None => s.(success := false)
  }

  /** The moves are present whenever a resolution could read them. */
  predicate MovesReady(s: Snapshot) {
    s.success ==> s.playerMove.Some? && s.computerMove.Some?
  }

  /** Clocks 16..24: apply the round's outcome once, then mark it applied. */
  function Resolve(s: Snapshot): Snapshot
    requires MovesReady(s)
  {
    if !s.success || s.scoredThisRound then s
    else
      var applied :=
        if s.playerMove == s.computerMove then
          s.(isOut := true, gameOver := s.innings == 2)
        else if s.isPlayerBatting then
          s.(playerScore := s.playerScore + s.playerMove.value)
        else
          var c := s.computerScore + s.computerMove.value;
          if s.innings == 2 && c > s.playerScore then
            s.(computerScore := c, isOut := true, gameOver := true)
          else
            s.(computerScore := c);
      applied.(scoredThisRound := true)
  }

  /** Clock 25: after a dismissal, hand over to the second innings or end the match. */
  function Checkpoint(s: Snapshot): Snapshot {
    if !s.isOut then s
    else if s.innings == 1 then
      s.(target := Some(s.playerScore), isPlayerBatting := false, isOut := false,
         innings := s.innings + 1, gameOver := false)
    else
      s.(gameOver := true, verdict := Some(Judge(s.playerScore, s.computerScore)))
  }

  /** Clock past 25: unless the match is over, set the clock to -1 and clear the round. */
  function AutoAdvance(s: Snapshot): Snapshot {
    if s.gameOver then s
    else s.(clock := -1, playerMove := None, computerMove := None, success := true)
  }

  /** The clock-keyed game logic, as one chain of cases. */
  function PhaseLogic(s: Snapshot, detection: Option<Hand>, computerChoice: int): Snapshot
    requires WellFormedHand(detection)
    requires 15 < s.clock < 25 ==> MovesReady(s)
  {
    if !s.gameStarted then s
    else if 0 <= s.clock < 5 then s.(success := true)
    else if 5 <= s.clock < 15 then s
    else if s.clock == 15 then Capture(s, detection, computerChoice)
    else if 15 < s.clock < 25 then Resolve(s)
    else if s.clock == 25 then Checkpoint(s)
    else if s.clock > 25 then AutoAdvance(s)
    else s
  }

  /** 's' starts an idle game; 'n' resets a finished match. Other keys change nothing here. */
  function HandleKey(s: Snapshot, key: Option<Key>): Snapshot {
    match key
    case Some(Start) => if !s.gameStarted then s.(gameStarted := true, clock := 0) else s
    case Some(Restart) => if s.gameOver then Initial() else s
    case _ => s
  }

  /** The clock runs while a match is live, and up to 51 after it ends. */
  function AdvanceClock(s: Snapshot): Snapshot {
    if s.gameStarted && !s.gameOver then s.(clock := s.clock + 1)
    else if s.gameStarted && s.gameOver && s.clock <= 50 then s.(clock := s.clock + 1)
    else s
  }

  /**
   * The invariant of every state the loop starts a frame in (from the initial
   * state, on frames that do not quit).
   */
  predicate Inv(s: Snapshot) {
    // innings, batting side and target move together
    (s.innings == 1 || s.innings == 2) &&
    (s.isPlayerBatting <==> s.innings == 1) &&
    (s.target.Some? <==> s.innings == 2) &&
    s.playerScore >= 0 && s.computerScore >= 0 && s.roundNum >= 0 &&
    (s.innings == 1 ==> s.computerScore == 0) &&
    (s.innings == 2 ==> s.target == Some(s.playerScore)) &&
    (s.innings == 2 && !s.gameOver ==> s.computerScore <= s.playerScore) &&
    // the captured moves
    (s.playerMove.Some? <==> s.computerMove.Some?) &&
    (s.playerMove.Some? ==> s.playerMove.value in HandGesture.RunValues) &&
    (s.computerMove.Some? ==> s.computerMove.value in HandGesture.RunValues) &&
    (s.clock <= 15 ==> s.playerMove.None?) &&
    (16 <= s.clock && s.success ==> s.playerMove.Some?) &&
    (!s.success ==> 16 <= s.clock <= 26) &&
    // the clock
    0 <= s.clock <= 51 &&
    (!s.gameStarted ==> s == Initial()) &&
    (!s.gameOver ==> s.clock <= 26) &&
    // the at-most-once guard
    (17 <= s.clock <= 25 && s.success ==> s.scoredThisRound) &&
    (s.scoredThisRound ==> s.clock == 0 || 17 <= s.clock) &&
    // dismissals and the end of the match
    (s.isOut ==> s.success) &&
    (s.isOut && !s.gameOver ==> s.innings == 1 && 17 <= s.clock <= 25) &&
    (s.gameOver ==> s.innings == 2 && s.isOut && s.success && 17 <= s.clock) &&
    (s.verdict.Some? <==> s.gameOver && 26 <= s.clock) &&
    (s.verdict.Some? ==> s.verdict.value == Judge(s.playerScore, s.computerScore))
  }

  /** One frame: the stages in the loop's order; 'q' leaves the loop before the key handling and the clock advance. */
  function Next(s: Snapshot, detection: Option<Hand>, computerChoice: int, key: Option<Key>): Snapshot
    requires Inv(s) && WellFormedHand(detection)
  {
    var t := PhaseLogic(BeginRound(s), detection, computerChoice);
    if key == Some(Quit) then t else AdvanceClock(HandleKey(t, key))
  }

  function NextFrame(s: Snapshot, f: Frame): Snapshot
    requires Inv(s) && FrameOk(f)
  {
    Next(s, f.detection, f.computerChoice, f.key)
  }

  /** Every frame that does not quit keeps the invariant. */
  lemma NextPreservesInv(s: Snapshot, detection: Option<Hand>, computerChoice: int, key: Option<Key>)
    requires Inv(s) && WellFormedHand(detection) && computerChoice in HandGesture.RunValues
    requires key != Some(Quit)
    ensures Inv(Next(s, detection, computerChoice, key))
  {
  }

  /** The state after running the loop over `frames`, stopping at the first 'q'. */
  function Run(s: Snapshot, frames: seq<Frame>): Snapshot
    requires Inv(s) && FramesOk(frames)
    decreases |frames|
  {
    if frames == [] then s
    else
      var f := frames[0];
      var t := NextFrame(s, f);
      if f.key == Some(Quit) then t
      else
        NextPreservesInv(s, f.detection, f.computerChoice, f.key);
        Run(t, frames[1..])
  }

  /** The states the loop starts its frames in, one per frame it processes. */
  function Trace(s: Snapshot, frames: seq<Frame>): seq<Snapshot>
    requires Inv(s) && FramesOk(frames)
    decreases |frames|
  {
    if frames == [] then []
    else
      var f := frames[0];
      if f.key == Some(Quit) then [s]
      else
        NextPreservesInv(s, f.detection, f.computerChoice, f.key);
        [s] + Trace(NextFrame(s, f), frames[1..])
  }
}
