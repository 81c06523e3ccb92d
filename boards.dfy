/** One round's board: the secret, the masked display, the guesses and the budget. */
module Boards {
  import opened Wrappers
  import opened Letters

  /** The default of `max_guesses` in Board#initialize. */
  const DefaultMaxGuesses := 6

  /**
   * The board's fields. `guessed` is None when the board object has no
   * guessed-letter list at all (nil), which already_guessed? repairs.
   */
  datatype BoardState = BoardState(
    secret: seq<char>,
    display: seq<char>,
    wrong: seq<char>,
    guessesLeft: int,
    guessed: Option<seq<char>>)

  /** What update_board leaves behind and whether the letter was in the word. */
  datatype GuessResult = GuessResult(board: BoardState, correct: bool)

  datatype Status = Ongoing | Won | Lost

  predicate Distinct(s: seq<char>) {
    forall i, j :: 0 <= i < j < |s| ==> s[i] != s[j]
  }

  /** Board#initialize: the secret upper-cased, every slot masked, nothing guessed. */
  function Fresh(word: string, maxGuesses: int): (b: BoardState)
    ensures b.secret == Upcase(word) && |b.display| == |b.secret| == |word|
    ensures forall i :: 0 <= i < |b.display| ==> b.display[i] == Placeholder
    ensures b.wrong == [] && b.guessed == Some([]) && b.guessesLeft == maxGuesses
  {
    var secret := Upcase(word);
    BoardState(secret, seq(|secret|, _ => Placeholder), [], maxGuesses, Some([]))
  }

  /** The guessed-letter list, a missing one read as empty. */
  function GuessedLetters(b: BoardState): seq<char> {
    b.guessed.GetOr([])
  }

  /** already_guessed?, apart from the repair of a missing list. */
  predicate IsGuessed(b: BoardState, letter: char) {
    letter in GuessedLetters(b)
  }

  /** The repair `@all_guessed_letters ||= []` in already_guessed?. */
  function Normalized(b: BoardState): (r: BoardState)
    ensures r.guessed == Some(GuessedLetters(b)) && (b.guessed.Some? ==> r == b)
    ensures r == b.(guessed := r.guessed)
    ensures forall c :: IsGuessed(r, c) <==> IsGuessed(b, c)
  {
    b.(guessed := Some(GuessedLetters(b)))
  }

  /** The display after every slot whose secret letter is `letter` is set to it. */
  function Reveal(secret: seq<char>, display: seq<char>, letter: char): seq<char> {
    seq(|display|, i requires 0 <= i < |display| =>
      if i < |secret| && secret[i] == letter then letter else display[i])
  }

  /**
   * update_board. The letter is always added to the guessed list. A letter
   * of the secret reveals all its positions and costs nothing; any other
   * letter joins the wrong list unless it is there already and costs one
   * guess, with no floor at zero.
   */
  function ApplyGuess(b: BoardState, letter: char): (r: GuessResult)
    requires b.guessed.Some?
    requires |b.secret| <= |b.display|
    ensures r.correct <==> letter in b.secret
    ensures r.board.secret == b.secret && |r.board.display| == |b.display|
    ensures r.board.guessed == Some(b.guessed.value + [letter]) && IsGuessed(r.board, letter)
    ensures r.correct ==> r.board.wrong == b.wrong && r.board.guessesLeft == b.guessesLeft
    ensures r.correct ==> forall i :: 0 <= i < |b.secret| && b.secret[i] == letter ==>
                            r.board.display[i] == letter
    ensures r.correct ==> forall i :: 0 <= i < |b.display| && !(i < |b.secret| && b.secret[i] == letter) ==>
                            r.board.display[i] == b.display[i]
    ensures !r.correct ==> r.board.display == b.display && r.board.guessesLeft == b.guessesLeft - 1
    ensures !r.correct ==> letter in r.board.wrong
    ensures !r.correct ==> r.board.wrong == if letter in b.wrong then b.wrong else b.wrong + [letter]
    ensures Distinct(b.wrong) ==> Distinct(r.board.wrong)
  {
    var guessed := Some(b.guessed.value + [letter]);
    if letter in b.secret then
      GuessResult(b.(display := Reveal(b.secret, b.display, letter), guessed := guessed), true)
    else
      var wrong := if letter in b.wrong then b.wrong else b.wrong + [letter];
      GuessResult(b.(wrong := wrong, guessesLeft := b.guessesLeft - 1, guessed := guessed), false)
  }

  /** word_complete?: no slot is masked any more. */
  predicate WordComplete(b: BoardState) {
    Placeholder !in b.display
  }

  /** out_of_guesses?: the budget is zero or below. */
  predicate OutOfGuesses(b: BoardState) {
    b.guessesLeft <= 0
  }

  /**
   * The two tests in the order the play loop applies them: a complete word
   * wins even when no guesses are left.
   */
  function StatusOf(b: BoardState): (s: Status)
    ensures s == Won <==> forall i :: 0 <= i < |b.display| ==> b.display[i] != Placeholder
    ensures s == Lost <==> !WordComplete(b) && b.guessesLeft <= 0
    ensures s == Ongoing <==> !WordComplete(b) && b.guessesLeft > 0
  {
    if WordComplete(b) then Won
    else if OutOfGuesses(b) then Lost
    else Ongoing
  }

  /** Ruby's class Board, whose arrays and counter are updated in place. */
  class Board {
    var secret: seq<char>
    var display: seq<char>
    var wrongGuesses: seq<char>
    var guessesLeft: int
    var allGuessed: Option<seq<char>>

    function State(): BoardState
      reads this
    {
      BoardState(secret, display, wrongGuesses, guessesLeft, allGuessed)
    }

    constructor (word: string, maxGuesses: int)
      ensures State() == Fresh(word, maxGuesses)
    {
      secret := Upcase(word);
      display := seq(|word|, _ => Placeholder);
      wrongGuesses := [];
      allGuessed := Some([]);
      guessesLeft := maxGuesses;
    }

    /**
     * from_data: the fields are taken as given, without any consistency
     * check; a nil guessed list becomes an empty one.
     */
    constructor FromData(secret: seq<char>, display: seq<char>, wrongGuesses: seq<char>,
                         guessesLeft: int, allGuessed: Option<seq<char>>)
      ensures State() == BoardState(secret, display, wrongGuesses, guessesLeft, Some(allGuessed.GetOr([])))
    {
      this.secret := secret;
      this.display := display;
      this.wrongGuesses := wrongGuesses;
      this.guessesLeft := guessesLeft;
      this.allGuessed := Some(allGuessed.GetOr([]));
    }

    /** already_guessed?: repairs a missing list, then tests membership. */
    method AlreadyGuessed(letter: char) returns (r: bool)
      modifies this
      ensures State() == Normalized(old(State()))
      ensures r == IsGuessed(old(State()), letter)
    {
      if allGuessed.None? {
        allGuessed := Some([]);
      }
      r := letter in allGuessed.value;
    }

    /** update_board, revealing slot by slot as `each_with_index` does. */
    method UpdateBoard(letter: char) returns (correct: bool)
      requires allGuessed.Some?
      requires |secret| <= |display|
      modifies this
      ensures State() == ApplyGuess(old(State()), letter).board
      ensures correct == ApplyGuess(old(State()), letter).correct
    {
      allGuessed := Some(allGuessed.value + [letter]);
      if letter in secret {
        var i := 0;
        while i < |secret|
          invariant 0 <= i <= |secret| <= |display|
          invariant secret == old(secret) && |display| == |old(display)|
          invariant wrongGuesses == old(wrongGuesses) && guessesLeft == old(guessesLeft)
          invariant allGuessed == Some(old(allGuessed).value + [letter])
          invariant forall k :: 0 <= k < |display| ==>
                      display[k] == if k < i && secret[k] == letter then letter else old(display)[k]
        {
          if secret[i] == letter {
            display := display[i := secret[i]];
          }
          i := i + 1;
        }
        assert display == Reveal(secret, old(display), letter);
        correct := true;
      } else {
        if letter !in wrongGuesses {
          wrongGuesses := wrongGuesses + [letter];
        }
        guessesLeft := guessesLeft - 1;
        correct := false;
      }
    }
  }
}
