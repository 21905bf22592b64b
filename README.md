# Number guessing game: a Dafny model of its state machine

The game hides an integer in [0, 100) and gives the player ten trials to
guess it, with a "too high" or "too low" verdict after each guess. All of
its logic is one pure reducer. The reducer maps a `GameState` record and
one of three actions (`Update_Player_Guess`, `New_Game`, `Player_Guess`)
to the next record. This project models that reducer as Dafny functions
and proves what each branch does. It also proves the invariants that hold
in every state reached from the initial state the page starts with.

Modules:

- `Options` (options.dfy): `Option`, which stands for a value that may be `null`.
- `Numbers` (numbers.dfy): `Number(text)` on decimal integers (`ToNumber`),
  the `${n}` text of a number (`IntToString`, `NumberToString`), and
  JavaScript's `===` and `>` with NaN and `null`.
- `Game` (game.dfy): the state, the actions, the feedback texts, the draw
  of the secret, the initial state and `GameReducer`, with one lemma
  per branch.
- `GamePlay` (gameplay.dfy): action sequences replayed from the initial
  state, the guard the page puts on its two buttons, and the invariants.
- `Scenarios` (scenarios.dfy): particular rounds and the exact text
  they show.

`Math.random()` is a parameter of type `RandomValue` (a real in [0, 1)).
The reducer receives it with every action, and only `New_Game` uses it.
The feedback is a datatype. `FeedbackText` renders it as the page's
template strings do.

Where the code and the design description differ, the model follows the
code:

- At start, the code has New Game enabled and the input and Guess
  button locked.
- The "trials never negative" claim holds only when the page's button
  guard is respected. `UnguardedGuessLeavesNegativeTrials` shows a
  reducer call that breaks it.
- The flag relation the code keeps is an exact equality: Guess
  disabled == input read-only == New Game enabled. The design
  describes only an implication between two of the flags.

## Model

| member | source | states |
|---|---|---|
| Numbers.NatToStringDigits | src/App.tsx:53 | the decimal text of a natural number is a non-empty run of digits whose value is that number |
| Numbers.ToNumberOfIntToString | src/App.tsx:44 | `Number` reads the text of any integer back as that same integer |
| Numbers.IntToStringInjective | src/App.tsx:63 | two integers with the same text are equal, so the loss message identifies the secret |
| Numbers.ToNumberOfNonNumeric | src/App.tsx:44 | a string with any character other than a digit or sign parses to NaN |
| Game.GenerateSecretNumber | src/App.tsx:18-20 | the drawn secret lies in [0, 100) |
| Game.EverySecretCanBeDrawn | src/App.tsx:18-20 | every integer in [0, 100) is drawn by some random value, so the range is exactly [0, 100) |
| Game.OnlyNewGameDraws | src/App.tsx:22-79 | every action except New_Game gives the same result whatever the random value |
| Game.UpdatePlayerGuessStoresPayload | src/App.tsx:23-28 | Update_Player_Guess sets the input text to the payload and leaves the other six fields unchanged |
| Game.UpdatePlayerGuessIdempotent | src/App.tsx:23-28 | applying Update_Player_Guess twice with one payload equals applying it once; a later payload replaces an earlier one |
| Game.NewGameStartsRound | src/App.tsx:30-41 | New_Game gives 10 trials, empty input, guessing unlocked, New Game disabled, the "Secret Number Generated…" text and a secret in [0, 100); the result does not depend on the previous state |
| Game.WinOutcome | src/App.tsx:47-55 | when the parsed guess equals the secret: round-over flags, a score of the pre-guess trial count times 10, and trials, secret and input unchanged |
| Game.LossOutcome | src/App.tsx:57-66 | a miss with one trial left: round-over flags, feedback naming the secret, and trials reset to 10 |
| Game.ContinueOutcome | src/App.tsx:68-75 | a miss with trials to spare: one trial fewer; "too high" iff the guess is a number above the secret (absent = 0), otherwise "too low"; nothing else changes |
| Game.GuessEndsRoundIff | src/App.tsx:43-76 | after a guess, the Guess button is disabled iff the guess matched, it used the last trial, or the round was already over |
| Game.CorrectGuessOnLastTrialWins | src/App.tsx:47-57 | the right number with one trial left is a 10% win, not a loss |
| Game.NaNGuessNeverWins | src/App.tsx:44-75 | a NaN guess never wins; it is "too low" unless it uses the last trial, in which case it loses |
| Game.NoSecretNoWin | src/App.tsx:44-75 | with no secret, no guess wins, and the high/low verdict compares with 0 |
| Game.TypedSecretWins | src/App.tsx:44-55 | guessing the decimal text of the secret wins with the pre-guess trial count times 10 |
| Game.WinMeansMatch | src/App.tsx:47-75 | a win can only come from a guess that parses to the secret |
| GamePlay.StepKeepsFlagsAgree | src/App.tsx:22-79 | every action keeps Guess disabled == input read-only == New Game enabled |
| GamePlay.FlagsAlwaysAgree | src/App.tsx:82-90 | in every state reached from the initial state, by any action sequence, the three flags agree |
| GamePlay.SecretIsLastDraw | src/App.tsx:30-41 | in every reached state the secret is the one drawn by the most recent New_Game (none before the first), and it lies in [0, 100) |
| GamePlay.EnabledStepKeepsConsistent | src/App.tsx:22-79 | an action whose button is enabled keeps a state consistent: flags agreeing, and either no round yet or trials in [1, 10], a secret in [0, 100) and feedback present |
| GamePlay.GuardedRunConsistent | src/App.tsx:82-132 | when only enabled buttons are pressed: trials stay in [0, 10]; guessing is enabled only with 1 to 10 trials and a secret in [0, 100); feedback is absent iff no New_Game has happened |
| GamePlay.RoundBudget | src/App.tsx:43-76 | when only enabled buttons are pressed, a round takes at most 10 guesses; while guessing is enabled, trials left plus guesses made equals 10 |
| GamePlay.UnguardedGuessLeavesNegativeTrials | src/App.tsx:43-76 | a guess dispatched from the initial state, where the Guess button is disabled, would leave -1 trials |
| Scenarios.WinScenario | src/App.tsx:47-55 | secret 42, 7 trials, guess "42": "You Win! Your score is 70%" and the input and Guess locked |
| Scenarios.LossScenario | src/App.tsx:57-66 | secret 10, 1 trial, guess "99": "You Lost. The secret number was 10", trials 10, New Game enabled |
| Scenarios.TooHighScenario | src/App.tsx:68-75 | secret 50, 5 trials, guess "80": "80 is too high", 4 trials left |
| Scenarios.TooLowScenario | src/App.tsx:68-75 | secret 50, 5 trials, guess "10": "10 is too low", 4 trials left |
| Scenarios.NonNumericScenario | src/App.tsx:44-73 | secret 5, 3 trials, guess "abc": "NaN is too low", 2 trials |
| Scenarios.EmptyGuessIsZero | src/App.tsx:44-55 | an empty guess is the number 0 and wins when the secret is 0 |

## Left out

- The `Game` component is not modelled. That covers the JSX layout, `useReducer`, the form's `onSubmit`/`preventDefault`, the input's `onChange` and the CSS import. It is presentation. Its only logical content is the initial state (`InitialState`) and the button guard (`GamePlay.Enabled`).
- Numbers.ToNumber: handles only the empty string and optionally signed decimal integers. JavaScript's `Number` also trims whitespace and reads fractions ("42.5"), exponents, hex/octal/binary prefixes and "Infinity". Here those strings are NaN, so for them the model's verdict can differ from the page's.
- Numbers.ToNumber: integers are unbounded. JavaScript numbers are doubles, so integers above 2^53 lose precision and parse differently.
- Numbers.IntToString: writes every integer in plain decimal. JavaScript switches to exponent notation from 10^21. The reachable scores and secrets are far below that.
- Game.GenerateSecretNumber: uses exact real arithmetic. It does not model `Math.random`'s floating-point output or its distribution. Only the range [0, 1) is kept, and uniformity over [0, 100) is not stated.
- Game.GameReducer: the final `return state` for an unknown action tag is not modelled. The action datatype is closed, so that line cannot be reached.
- GamePlay.Enabled: does not require the Player_Guess payload to equal the current input text, as the form's submit handler provides. None of the invariants need it.
