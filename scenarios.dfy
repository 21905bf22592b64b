/** Concrete rounds: the reducer applied to particular states and the
    exact text the page then shows. */
module Scenarios {
  import opened Options
  import opened Numbers
  import opened Game

  /** A round in progress with the given secret and trials left. */
  function Playing(secret: int, trials: int): GameState {
    InitialState().(
      newGameBtnDisabled := true, inputReadOnly := false, guessBtnDisabled := false,
      feedback := Some(SecretGenerated), numTrials := trials, secretNumber := Some(secret))
  }

  /** Guessing 42 with secret 42 and 7 trials left wins with 70%. */
  lemma WinScenario()
    ensures var n := GameReducer(Playing(42, 7), PlayerGuess("42"), 0.0);
            && FeedbackText(n.feedback.value) == "You Win! Your score is 70%"
            && n.guessBtnDisabled && n.inputReadOnly && !n.newGameBtnDisabled
  {
    assert IntToString(42) == "42" by {
      assert NatToString(4) == "4";
    }
    ToNumberOfIntToString(42);
    assert IntToString(70) == "70" by {
      assert NatToString(7) == "7";
    }
  }

  /** Missing with secret 10 on the last trial loses and names 10. */
  lemma LossScenario()
    ensures var n := GameReducer(Playing(10, 1), PlayerGuess("99"), 0.0);
            && FeedbackText(n.feedback.value) == "You Lost. The secret number was 10"
            && n.numTrials == 10 && !n.newGameBtnDisabled
  {
    assert IntToString(99) == "99" by {
      assert NatToString(9) == "9";
    }
    ToNumberOfIntToString(99);
    assert IntToString(10) == "10" by {
      assert NatToString(1) == "1";
    }
  }

  /** With secret 50 and 5 trials left, 80 is too high and costs a trial. */
  lemma TooHighScenario()
    ensures var n := GameReducer(Playing(50, 5), PlayerGuess("80"), 0.0);
            FeedbackText(n.feedback.value) == "80 is too high" && n.numTrials == 4
  {
    assert IntToString(80) == "80" by {
      assert NatToString(8) == "8";
    }
    ToNumberOfIntToString(80);
  }

  /** With secret 50 and 5 trials left, 10 is too low and costs a trial. */
  lemma TooLowScenario()
    ensures var n := GameReducer(Playing(50, 5), PlayerGuess("10"), 0.0);
            FeedbackText(n.feedback.value) == "10 is too low" && n.numTrials == 4
  {
    assert IntToString(10) == "10" by {
      assert NatToString(1) == "1";
    }
    ToNumberOfIntToString(10);
  }

  /** "abc" is not a number: it does not win and is reported as too low. */
  lemma NonNumericScenario()
    ensures var n := GameReducer(Playing(5, 3), PlayerGuess("abc"), 0.0);
            && FeedbackText(n.feedback.value) == "NaN is too low" && n.numTrials == 2
  {
    ToNumberOfNonNumeric("abc", 0);
  }

  /** An empty guess is the number 0, so it wins when the secret is 0. */
  lemma EmptyGuessIsZero()
    ensures GameReducer(Playing(0, 4), PlayerGuess(""), 0.0).feedback == Some(YouWin(40))
  {
  }
}
