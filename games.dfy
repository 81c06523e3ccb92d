/** A game session: the player, the board, and the play loop that drives them. */
module Games {
  import opened Wrappers
  import opened Letters
  import opened Words
  import opened Boards

  datatype GameState = GameState(playerName: string, board: BoardState, active: bool)

  /** How the play loop reads one line of input. */
  datatype Command = SaveRequest | InvalidFormat | Duplicate(letter: char) | Guess(letter: char)

  /** Which message the play loop answers a line with. */
  datatype Outcome = SaveRequested | InvalidInput | AlreadyGuessed | GoodGuess | NotInWord

  datatype TurnResult = TurnResult(board: BoardState, outcome: Outcome)

  /**
   * The line is upper-cased before the test `input.downcase == "save"`, so
   * the test holds exactly when the upper-cased line is SAVE.
   */
  const SaveKeyword := "SAVE"

  /**
   * handle_save reads two more lines from the same input: the format choice
   * and the file name.
   */
  const SaveAnswers := 2

  /** `gets.chomp.upcase`, the input as the loop examines it. */
  function Normalize(line: string): string {
    Upcase(Chomp(line))
  }

  predicate IsSingleLetter(u: string) {
    |u| == 1 && IsAsciiUpper(u[0])
  }

  /** The checks of the play loop in their order: save, format, repeat. */
  function Classify(line: string, b: BoardState): (c: Command)
    ensures c == SaveRequest <==> Normalize(line) == SaveKeyword
    ensures c == InvalidFormat <==> Normalize(line) != SaveKeyword && !IsSingleLetter(Normalize(line))
    ensures c.Duplicate? || c.Guess? ==> Normalize(line) == [c.letter] && IsAsciiUpper(c.letter)
    ensures c.Duplicate? <==> IsSingleLetter(Normalize(line)) && IsGuessed(b, Normalize(line)[0])
  {
    var input := Normalize(line);
    if input == SaveKeyword then SaveRequest
    else if !IsSingleLetter(input) then InvalidFormat
    else if IsGuessed(b, input[0]) then Duplicate(input[0])
    else Guess(input[0])
  }

  /**
   * One pass of the play loop that reads input. Only a new letter reaches
   * update_board; a save request, a malformed line and a repeated letter
   * leave the board as it is.
   */
  function Turn(b: BoardState, line: string): (r: TurnResult)
    requires |b.secret| <= |b.display|
    ensures r.board.secret == b.secret && |r.board.display| == |b.display|
    ensures !Classify(line, b).Guess? ==> r.board == b
    ensures Classify(line, b).Guess? ==>
              IsGuessed(r.board, Classify(line, b).letter) &&
              (r.outcome == GoodGuess <==> Classify(line, b).letter in b.secret)
    ensures r.outcome == (match Classify(line, b)
                          case SaveRequest => SaveRequested
                          case InvalidFormat => InvalidInput
                          case Duplicate(_) => AlreadyGuessed
                          case Guess(l) => if l in b.secret then GoodGuess else NotInWord)
    ensures r.board.guessesLeft == if r.outcome == NotInWord then b.guessesLeft - 1 else b.guessesLeft
  {
    match Classify(line, b)
    case SaveRequest => TurnResult(b, SaveRequested)
    case InvalidFormat => TurnResult(b, InvalidInput)
    case Duplicate(_) => TurnResult(b, AlreadyGuessed)
    case Guess(letter) =>
      var g := ApplyGuess(Normalized(b), letter);
      TurnResult(g.board, if g.correct then GoodGuess else NotInWord)
  }

  /**
   * The play loop fed the lines `inputs`: before each read it ends the game
   * on a win, then on a loss. After a save request the next two lines are
   * handle_save's answers, not guesses. The model stops when the lines run
   * out, where Ruby would wait for more.
   */
  function Run(g: GameState, inputs: seq<string>): (r: GameState)
    requires |g.board.secret| <= |g.board.display|
    ensures r.playerName == g.playerName && r.board.secret == g.board.secret
    ensures |r.board.display| == |g.board.display|
    ensures !g.active ==> r == g
    ensures r.active ==> g.active && StatusOf(r.board) == Ongoing
    ensures g.active && !r.active ==> StatusOf(r.board) != Ongoing
    decreases |inputs|
  {
    if !g.active then g
    else if StatusOf(g.board) != Ongoing then g.(active := false)
    else if inputs == [] then g
    else if Classify(inputs[0], g.board) == SaveRequest then
      if |inputs| <= SaveAnswers then g else Run(g, inputs[1 + SaveAnswers..])
    else Run(g.(board := Turn(g.board, inputs[0]).board), inputs[1..])
  }

  /** Ruby's class Game. The player is kept by name; prompting is left out. */
  class Game {
    var playerName: string
    var board: Board
    var active: bool

    function Snapshot(): GameState
      reads this, board
    {
      GameState(playerName, board.State(), active)
    }

    /**
     * Game.new(player_name): loads the dictionary from the given lines and
     * starts a fresh board on the word chosen by `pick`. Ruby fails inside
     * Board.new when no word survives the filter.
     */
    constructor (playerName: string, dictionaryLines: seq<string>, pick: nat)
      requires |KeepPlayable(dictionaryLines)| > 0
      ensures fresh(board)
      ensures exists w :: w in KeepPlayable(dictionaryLines) &&
                Snapshot() == GameState(playerName, Fresh(w, DefaultMaxGuesses), true)
    {
      var wordManager := new Word();
      var words := wordManager.LoadDictionary(dictionaryLines);
      var word := wordManager.RandomWord(pick);
      this.playerName := playerName;
      board := new Board(word.value, DefaultMaxGuesses);
      active := true;
    }

    /** The object that from_hash assembles from restored parts. */
    constructor Restore(playerName: string, board: Board, active: bool)
      ensures this.playerName == playerName && this.board == board && this.active == active
    {
      this.playerName := playerName;
      this.board := board;
      this.active := active;
    }

    /** The body of the play loop after the win and loss checks. */
    method TakeTurn(line: string) returns (outcome: Outcome)
      requires |board.secret| <= |board.display|
      modifies board
      ensures board.State() == Turn(old(board.State()), line).board
      ensures outcome == Turn(old(board.State()), line).outcome
    {
      var input := Normalize(line);
      if input == SaveKeyword {
        return SaveRequested;
      }
      if !IsSingleLetter(input) {
        return InvalidInput;
      }
      var repeated := board.AlreadyGuessed(input[0]);
      if repeated {
        return AlreadyGuessed;
      }
      var correct := board.UpdateBoard(input[0]);
      outcome := if correct then GoodGuess else NotInWord;
    }

    /** Game#play's loop, reading the lines of `inputs` in order. */
    method Play(inputs: seq<string>)
      requires |board.secret| <= |board.display|
      modifies this, board
      ensures board == old(board)
      ensures Snapshot() == Run(old(Snapshot()), inputs)
    {
      var i := 0;
      while active
        invariant 0 <= i <= |inputs|
        invariant board == old(board) && |board.secret| <= |board.display|
        invariant Run(Snapshot(), inputs[i..]) == Run(old(Snapshot()), inputs)
        decreases |inputs| - i + (if active then 1 else 0)
      {
        if WordComplete(board.State()) {
          active := false;
        } else if OutOfGuesses(board.State()) {
          active := false;
        } else if i == |inputs| {
          break;
        } else {
          var outcome := TakeTurn(inputs[i]);
          if outcome == SaveRequested {
            // handle_save reads the format choice and the file name.
            if |inputs| - i <= SaveAnswers {
              break;
            }
            assert inputs[i..][1 + SaveAnswers..] == inputs[i + 1 + SaveAnswers..];
            i := i + 1 + SaveAnswers;
          } else {
            assert inputs[i..][1..] == inputs[i + 1..];
            i := i + 1;
          }
        }
      }
    }
  }
}
