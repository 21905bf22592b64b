/** Sequences of dispatched actions, replayed through the reducer from
    the initial state the component hands to `useReducer`, and the
    invariants every such sequence keeps. */
module GamePlay {
  import opened Options
  import opened Numbers
  import opened Game

  /** One dispatch: the action and the value `Math.random()` would
      return if the reducer called it. */
  datatype Step = Step(action: GameAction, random: RandomValue)

  /** The state after replaying `steps` from `s`, oldest step first. */
  function Run(s: GameState, steps: seq<Step>): GameState
    decreases |steps|
  {
    if steps == [] then s
    else
      var last := steps[|steps| - 1];
      GameReducer(Run(s, steps[..|steps| - 1]), last.action, last.random)
  }

  /** The state reached from the initial state. */
  function Reached(steps: seq<Step>): GameState {
    Run(InitialState(), steps)
  }

  /** The page dispatches New_Game only while its button is enabled and
      Player_Guess only while the Guess button is enabled; typing is
      not restricted here. */
  predicate Enabled(s: GameState, a: GameAction) {
    match a
    case NewGame => !s.newGameBtnDisabled
    case PlayerGuess(_) => !s.guessBtnDisabled
    case UpdatePlayerGuess(_) => true
  }

  /** Every step of `steps` was enabled in the state it was applied to. */
  predicate Guarded(steps: seq<Step>)
    decreases |steps|
  {
    steps == [] ||
    (Guarded(steps[..|steps| - 1]) && Enabled(Reached(steps[..|steps| - 1]), steps[|steps| - 1].action))
  }

  /** The secret drawn by the most recent New_Game, if any. */
  function LastDraw(steps: seq<Step>): Option<int>
    decreases |steps|
  {
    if steps == [] then None
    else if steps[|steps| - 1].action.NewGame? then Some(GenerateSecretNumber(steps[|steps| - 1].random))
    else LastDraw(steps[..|steps| - 1])
  }

  /** Player_Guess steps since the most recent New_Game. */
  function GuessesThisRound(steps: seq<Step>): nat
    decreases |steps|
  {
    if steps == [] then 0
    else
      var a := steps[|steps| - 1].action;
      if a.NewGame? then 0
      else if a.PlayerGuess? then GuessesThisRound(steps[..|steps| - 1]) + 1
      else GuessesThisRound(steps[..|steps| - 1])
  }

  /** Guess button and read-only input agree, and New Game is enabled
      exactly when they are locked. */
  predicate FlagsAgree(s: GameState) {
    s.guessBtnDisabled == s.inputReadOnly && s.inputReadOnly == !s.newGameBtnDisabled
  }

  /** No round has started yet. */
  predicate BeforeFirstRound(s: GameState) {
    s.feedback.None? && s.secretNumber.None? && s.numTrials == 0 && s.guessBtnDisabled
  }

  /** A round has started (it may be over). */
  predicate RoundStarted(s: GameState) {
    && s.feedback.Some?
    && s.secretNumber.Some? && 0 <= s.secretNumber.value < 100
    && 1 <= s.numTrials <= 10
  }

  predicate Consistent(s: GameState) {
    FlagsAgree(s) && (BeforeFirstRound(s) || RoundStarted(s))
  }

  /** Every action keeps the flags in agreement. */
  lemma StepKeepsFlagsAgree(s: GameState, a: GameAction, r: RandomValue)
    requires FlagsAgree(s)
    ensures FlagsAgree(GameReducer(s, a, r))
  {
  }

  /** Whatever is dispatched, in whatever order, the three flags agree
      in every reached state. */
  lemma {:induction false} FlagsAlwaysAgree(steps: seq<Step>)
    ensures FlagsAgree(Reached(steps))
  {
    if steps != [] {
      var last := steps[|steps| - 1];
      FlagsAlwaysAgree(steps[..|steps| - 1]);
      StepKeepsFlagsAgree(Reached(steps[..|steps| - 1]), last.action, last.random);
    }
  }

  /** Whatever is dispatched, the secret is the one drawn by the last
      New_Game, and none before the first. */
  lemma {:induction false} SecretIsLastDraw(steps: seq<Step>)
    ensures Reached(steps).secretNumber == LastDraw(steps)
    ensures LastDraw(steps).Some? ==> 0 <= LastDraw(steps).value < 100
  {
    if steps != [] {
      SecretIsLastDraw(steps[..|steps| - 1]);
    }
  }

  /** An enabled action keeps a consistent state consistent. */
  lemma EnabledStepKeepsConsistent(s: GameState, a: GameAction, r: RandomValue)
    requires Consistent(s) && Enabled(s, a)
    ensures Consistent(GameReducer(s, a, r))
  {
  }

  /** Under the page's guard every reached state is consistent: trials
      stay in [0, 10], guessing is enabled only with 1 to 10 trials left
      and a secret in [0, 100), and there is feedback exactly when a
      round has been started. */
  lemma {:induction false} GuardedRunConsistent(steps: seq<Step>)
    requires Guarded(steps)
    ensures Consistent(Reached(steps))
    ensures 0 <= Reached(steps).numTrials <= 10
    ensures !Reached(steps).guessBtnDisabled ==>
              && 1 <= Reached(steps).numTrials <= 10
              && Reached(steps).secretNumber.Some?
              && 0 <= Reached(steps).secretNumber.value < 100
    ensures Reached(steps).feedback.None? <==> LastDraw(steps).None?
  {
    if steps != [] {
      var prefix := steps[..|steps| - 1];
      var last := steps[|steps| - 1];
      GuardedRunConsistent(prefix);
      EnabledStepKeepsConsistent(Reached(prefix), last.action, last.random);
    }
    SecretIsLastDraw(steps);
  }

  /** Under the page's guard a round takes at most ten guesses: while
      guessing is enabled the trials left and the guesses made add up
      to ten, and after the tenth guess the Guess button is disabled. */
  lemma {:induction false} RoundBudget(steps: seq<Step>)
    requires Guarded(steps)
    ensures GuessesThisRound(steps) <= 10
    ensures !Reached(steps).guessBtnDisabled ==> Reached(steps).numTrials + GuessesThisRound(steps) == 10
    ensures GuessesThisRound(steps) == 10 ==> Reached(steps).guessBtnDisabled
  {
    if steps != [] {
      var prefix := steps[..|steps| - 1];
      RoundBudget(prefix);
      GuardedRunConsistent(prefix);
      GuardedRunConsistent(steps);
    }
  }

  /** Without the guard the trial bound fails: guessing in the initial
      state leaves -1 trials. */
  lemma UnguardedGuessLeavesNegativeTrials()
    ensures !Enabled(InitialState(), PlayerGuess(""))
    ensures GameReducer(InitialState(), PlayerGuess(""), 0.0).numTrials == -1
  {
  }
}
