/**
 * What holds of every board the play loop can reach from a fresh one: the
 * display, the wrong list and the budget are all determined by the secret
 * and the ordered list of guessed letters.
 */
module Rounds {
  import opened Wrappers
  import opened Letters
  import opened Boards
  import opened Games

  /** The display a board shows once the letters `guessed` have been tried. */
  function Mask(secret: seq<char>, guessed: seq<char>): seq<char> {
    seq(|secret|, i requires 0 <= i < |secret| =>
      if secret[i] in guessed then secret[i] else Placeholder)
  }

  /** The guessed letters that are not in the secret, in guessing order. */
  function Misses(guessed: seq<char>, secret: seq<char>): (r: seq<char>)
    ensures forall c :: c in r <==> c in guessed && c !in secret
    ensures Distinct(guessed) ==> Distinct(r)
  {
    if guessed == [] then []
    else
      var last := guessed[|guessed| - 1];
      Misses(guessed[..|guessed| - 1], secret) + (if last in secret then [] else [last])
  }

  ghost predicate Reachable(b: BoardState, maxGuesses: int) {
    && b.guessed.Some?
    && Distinct(b.guessed.value)
    && b.display == Mask(b.secret, b.guessed.value)
    && b.wrong == Misses(b.guessed.value, b.secret)
    && b.guessesLeft == maxGuesses - |b.wrong|
  }

  lemma FreshReachable(word: string, maxGuesses: int)
    ensures Reachable(Fresh(word, maxGuesses), maxGuesses)
  {
  }

  /** A letter not guessed before keeps the board reachable. */
  lemma GuessPreservesReachable(b: BoardState, letter: char, maxGuesses: int)
    requires Reachable(b, maxGuesses) && !IsGuessed(b, letter)
    ensures Reachable(ApplyGuess(b, letter).board, maxGuesses)
  {
  }

  lemma TurnPreservesReachable(b: BoardState, line: string, maxGuesses: int)
    requires Reachable(b, maxGuesses)
    ensures |b.secret| <= |b.display|
    ensures Reachable(Turn(b, line).board, maxGuesses)
  {
    var c := Classify(line, b);
    if c.Guess? {
      GuessPreservesReachable(b, c.letter, maxGuesses);
    }
  }

  lemma {:induction false} RunPreservesReachable(g: GameState, inputs: seq<string>, maxGuesses: int)
    requires Reachable(g.board, maxGuesses)
    ensures |g.board.secret| <= |g.board.display|
    ensures Reachable(Run(g, inputs).board, maxGuesses)
    decreases |inputs|
  {
    if g.active && StatusOf(g.board) == Ongoing && inputs != [] {
      if Classify(inputs[0], g.board) == SaveRequest {
        if |inputs| > SaveAnswers {
          RunPreservesReachable(g, inputs[1 + SaveAnswers..], maxGuesses);
        }
      } else {
        TurnPreservesReachable(g.board, inputs[0], maxGuesses);
        RunPreservesReachable(g.(board := Turn(g.board, inputs[0]).board), inputs[1..], maxGuesses);
      }
    }
  }

  /**
   * The loop guesses only while guesses are left and a guess costs at most
   * one, so the budget never goes below zero in play, though update_board
   * itself has no floor.
   */
  lemma {:induction false} RunKeepsBudget(g: GameState, inputs: seq<string>)
    requires |g.board.secret| <= |g.board.display|
    requires g.board.guessesLeft >= 0
    ensures Run(g, inputs).board.guessesLeft >= 0
    decreases |inputs|
  {
    if g.active && StatusOf(g.board) == Ongoing && inputs != [] {
      if Classify(inputs[0], g.board) == SaveRequest {
        if |inputs| > SaveAnswers {
          RunKeepsBudget(g, inputs[1 + SaveAnswers..]);
        }
      } else {
        RunKeepsBudget(g.(board := Turn(g.board, inputs[0]).board), inputs[1..]);
      }
    }
  }

  /** A letter guessed once is a repeat on the next turn and changes nothing. */
  lemma RepeatChangesNothing(b: BoardState, line: string)
    requires |b.secret| <= |b.display| && Classify(line, b).Guess?
    ensures var after := Turn(b, line).board;
            Classify(line, after) == Duplicate(Classify(line, b).letter) &&
            Turn(after, line) == TurnResult(after, AlreadyGuessed)
  {
  }

  /** For a secret without the placeholder character, a reachable board is won iff every letter of the secret was guessed. */
  lemma WonIffAllLettersGuessed(b: BoardState, maxGuesses: int)
    requires Reachable(b, maxGuesses) && Placeholder !in b.secret
    ensures StatusOf(b) == Won <==> forall i :: 0 <= i < |b.secret| ==> b.secret[i] in b.guessed.value
  {
    if StatusOf(b) == Won {
      forall i | 0 <= i < |b.secret|
        ensures b.secret[i] in b.guessed.value
      {
        assert b.display[i] != Placeholder;
      }
    }
  }

  /**
   * A round played from a fresh board: the invariant holds at the end, the
   * budget is never negative and equals the maximum less the distinct wrong
   * letters.
   */
  lemma PlayFromFresh(name: string, word: string, maxGuesses: int, inputs: seq<string>)
    requires maxGuesses >= 0
    ensures var e := Run(GameState(name, Fresh(word, maxGuesses), true), inputs);
            Reachable(e.board, maxGuesses) && Distinct(e.board.wrong) &&
            0 <= e.board.guessesLeft == maxGuesses - |e.board.wrong|
  {
    var g := GameState(name, Fresh(word, maxGuesses), true);
    FreshReachable(word, maxGuesses);
    RunPreservesReachable(g, inputs, maxGuesses);
    RunKeepsBudget(g, inputs);
  }
}
