/** The game's state, its actions and the reducer that maps a state and
    an action to the next state (src/App.tsx). */
module Game {
  import opened Options
  import opened Numbers

  /** A value `Math.random()` may return. */
  type RandomValue = r: real | 0.0 <= r < 1.0

  /** Trials granted at the start of a round. */
  const MAX_TRIALS := 10

  /** The text shown under the form. */
  datatype Feedback =
    | SecretGenerated
    | YouWin(score: int)
    | YouLost(secret: Option<int>)
    | TooHigh(guess: JsNumber)
    | TooLow(guess: JsNumber)

  /** The string each feedback stands for, as its template writes it. */
  function FeedbackText(f: Feedback): string {
    match f
    case SecretGenerated => "Secret Number Generated. Good luck guessing it!"
    case YouWin(score) => "You Win! Your score is " + IntToString(score) + "%"
    case YouLost(secret) =>
      "You Lost. The secret number was " + (if secret.Some? then IntToString(secret.value) else "null")
    case TooHigh(guess) => NumberToString(guess) + " is too high"
    case TooLow(guess) => NumberToString(guess) + " is too low"
  }

  datatype GameState = GameState(
    newGameBtnDisabled: bool,
    inputReadOnly: bool,
    guessBtnDisabled: bool,
    feedback: Option<Feedback>,
    numTrials: int,
    secretNumber: Option<int>,
    playerGuess: string)

  datatype GameAction =
    | UpdatePlayerGuess(payload: string)
    | NewGame
    | PlayerGuess(payload: string)

  /** `Math.trunc(Math.random() * 100)`; truncation is the floor here
      because the product is never negative. */
  function GenerateSecretNumber(random: RandomValue): (n: int)
    ensures 0 <= n < 100
  {
    (random * 100.0).Floor
  }

  /** The state the game starts in: no round, New Game enabled. */
  function InitialState(): GameState {
    GameState(
      newGameBtnDisabled := false,
      inputReadOnly := true,
      guessBtnDisabled := true,
      feedback := None,
      numTrials := 0,
      secretNumber := None,
      playerGuess := "")
  }

  /** `state.secretNumber ?? 0` */
  function SecretOrZero(secret: Option<int>): int {
    if secret.Some? then secret.value else 0
  }

  /** The reducer. `random` is the value `Math.random()` returns when
      New_Game draws the secret; no other action uses it. */
  function GameReducer(state: GameState, action: GameAction, random: RandomValue): GameState {
    match action
    case UpdatePlayerGuess(payload) =>
      state.(playerGuess := payload)
    case NewGame =>
      state.(
        newGameBtnDisabled := true,
        inputReadOnly := false,
        guessBtnDisabled := false,
        feedback := Some(SecretGenerated),
        numTrials := MAX_TRIALS,
        secretNumber := Some(GenerateSecretNumber(random)),
        playerGuess := "")
    case PlayerGuess(payload) =>
      var guess := ToNumber(payload);
      var numTrialsLeft := state.numTrials - 1;
      if StrictEquals(guess, state.secretNumber) then
        state.(
          newGameBtnDisabled := false,
          inputReadOnly := true,
          guessBtnDisabled := true,
          feedback := Some(YouWin(state.numTrials * 10)))
      else if numTrialsLeft == 0 then
        state.(
          newGameBtnDisabled := false,
          inputReadOnly := true,
          guessBtnDisabled := true,
          feedback := Some(YouLost(state.secretNumber)),
          numTrials := MAX_TRIALS)
      else
        state.(
          feedback := Some(if GreaterThan(guess, SecretOrZero(state.secretNumber)) then TooHigh(guess) else TooLow(guess)),
          numTrials := numTrialsLeft)
  }

  /** The flags that end a round: New Game enabled, input and Guess locked. */
  predicate RoundOverFlags(s: GameState) {
    !s.newGameBtnDisabled && s.inputReadOnly && s.guessBtnDisabled
  }

  /** Every value in [0, 100) can be drawn, so the draw's range is exactly
      [0, 100). */
  lemma EverySecretCanBeDrawn(n: int)
    requires 0 <= n < 100
    ensures exists r: RandomValue :: GenerateSecretNumber(r) == n
  {
    var r: RandomValue := n as real / 100.0;
    assert r * 100.0 == n as real;
    assert GenerateSecretNumber(r) == n;
  }

  /** Only New_Game consumes the random value. */
  lemma OnlyNewGameDraws(s: GameState, a: GameAction, r1: RandomValue, r2: RandomValue)
    requires !a.NewGame?
    ensures GameReducer(s, a, r1) == GameReducer(s, a, r2)
  {
  }

  /** Update_Player_Guess stores the payload and changes nothing else. */
  lemma UpdatePlayerGuessStoresPayload(s: GameState, payload: string, r: RandomValue)
    ensures GameReducer(s, UpdatePlayerGuess(payload), r).playerGuess == payload
    ensures GameReducer(s, UpdatePlayerGuess(payload), r) == s.(playerGuess := payload)
  {
  }

  /** Applying Update_Player_Guess twice is the same as applying it once,
      and a second payload overrides the first. */
  lemma UpdatePlayerGuessIdempotent(s: GameState, p: string, q: string, r: RandomValue)
    ensures var once := GameReducer(s, UpdatePlayerGuess(p), r);
            GameReducer(once, UpdatePlayerGuess(p), r) == once
    ensures var once := GameReducer(s, UpdatePlayerGuess(p), r);
            GameReducer(once, UpdatePlayerGuess(q), r) == GameReducer(s, UpdatePlayerGuess(q), r)
  {
  }

  /** New_Game sets every field, so the new round depends only on the
      draw, never on the state it started from. */
  lemma NewGameStartsRound(s: GameState, t: GameState, r: RandomValue)
    ensures var n := GameReducer(s, NewGame, r);
            && n.numTrials == 10 && n.playerGuess == ""
            && !n.guessBtnDisabled && !n.inputReadOnly && n.newGameBtnDisabled
            && n.feedback == Some(SecretGenerated)
            && FeedbackText(n.feedback.value) == "Secret Number Generated. Good luck guessing it!"
            && n.secretNumber.Some? && 0 <= n.secretNumber.value < 100
    ensures GameReducer(s, NewGame, r) == GameReducer(t, NewGame, r)
  {
  }

  /** A guess whose number equals the secret wins: the round-over flags,
      a score of ten percent per trial left before this guess, and
      the trial count, secret and input text left as they were. */
  lemma WinOutcome(s: GameState, payload: string, r: RandomValue)
    requires StrictEquals(ToNumber(payload), s.secretNumber)
    ensures var n := GameReducer(s, PlayerGuess(payload), r);
            && RoundOverFlags(n)
            && n.feedback == Some(YouWin(s.numTrials * 10))
            && n.numTrials == s.numTrials
            && n.secretNumber == s.secretNumber
            && n.playerGuess == s.playerGuess
  {
  }

  /** A guess that misses on the last trial loses: the round-over
      flags, feedback naming the secret, and the trial count reset to 10. */
  lemma LossOutcome(s: GameState, payload: string, r: RandomValue)
    requires !StrictEquals(ToNumber(payload), s.secretNumber)
    requires s.numTrials - 1 == 0
    ensures var n := GameReducer(s, PlayerGuess(payload), r);
            && RoundOverFlags(n)
            && n.feedback == Some(YouLost(s.secretNumber))
            && n.numTrials == 10
            && n.secretNumber == s.secretNumber
            && n.playerGuess == s.playerGuess
  {
  }

  /** A miss with trials to spare costs one trial and says whether the
      guess was above the secret (an absent secret counts as 0); the
      flags, the secret and the input text stay as they were. */
  lemma ContinueOutcome(s: GameState, payload: string, r: RandomValue)
    requires !StrictEquals(ToNumber(payload), s.secretNumber)
    requires s.numTrials - 1 != 0
    ensures var n := GameReducer(s, PlayerGuess(payload), r);
            var g := ToNumber(payload);
            && n.numTrials == s.numTrials - 1
            && (n.feedback == Some(TooHigh(g)) <==> g.Num? && g.value > SecretOrZero(s.secretNumber))
            && (n.feedback == Some(TooLow(g)) <==> !(g.Num? && g.value > SecretOrZero(s.secretNumber)))
            && n == s.(feedback := n.feedback, numTrials := s.numTrials - 1)
  {
  }

  /** A guess ends the round exactly when it wins or uses the last
      trial (or when the round was already over). */
  lemma GuessEndsRoundIff(s: GameState, payload: string, r: RandomValue)
    ensures var n := GameReducer(s, PlayerGuess(payload), r);
            n.guessBtnDisabled
            <==> StrictEquals(ToNumber(payload), s.secretNumber) || s.numTrials == 1 || s.guessBtnDisabled
  {
  }

  /** The win check comes first: the right number on the last trial
      is a win worth 10%, not a loss. */
  lemma CorrectGuessOnLastTrialWins(s: GameState, payload: string, r: RandomValue)
    requires s.numTrials == 1
    requires StrictEquals(ToNumber(payload), s.secretNumber)
    ensures GameReducer(s, PlayerGuess(payload), r).feedback == Some(YouWin(10))
    ensures GameReducer(s, PlayerGuess(payload), r).numTrials == 1
  {
  }

  /** A guess that is not a number never wins; unless it uses the last
      trial it is reported as too low. */
  lemma NaNGuessNeverWins(s: GameState, payload: string, r: RandomValue)
    requires ToNumber(payload) == NaN
    ensures var n := GameReducer(s, PlayerGuess(payload), r);
            && !n.feedback.value.YouWin?
            && (s.numTrials != 1 ==> n.feedback == Some(TooLow(NaN)))
            && (s.numTrials == 1 ==> n.feedback == Some(YouLost(s.secretNumber)))
  {
  }

  /** Before any secret is drawn no guess wins, and the higher/lower
      verdict compares with 0. */
  lemma NoSecretNoWin(s: GameState, payload: string, r: RandomValue)
    requires s.secretNumber.None?
    ensures var n := GameReducer(s, PlayerGuess(payload), r);
            && !n.feedback.value.YouWin?
            && (s.numTrials != 1 ==>
                  n.feedback == Some(if GreaterThan(ToNumber(payload), 0) then TooHigh(ToNumber(payload))
                                     else TooLow(ToNumber(payload))))
  {
  }

  /** Typing the secret's decimal text and guessing it wins. */
  lemma TypedSecretWins(s: GameState, r: RandomValue)
    requires s.secretNumber.Some?
    ensures var n := GameReducer(s, PlayerGuess(IntToString(s.secretNumber.value)), r);
            n.feedback == Some(YouWin(s.numTrials * 10)) && RoundOverFlags(n)
  {
    ToNumberOfIntToString(s.secretNumber.value);
  }

  /** A guess wins only if its number equals the secret. */
  lemma WinMeansMatch(s: GameState, payload: string, r: RandomValue)
    requires GameReducer(s, PlayerGuess(payload), r).feedback.value.YouWin?
    ensures s.secretNumber.Some? && ToNumber(payload) == Num(s.secretNumber.value)
  {
  }
}
