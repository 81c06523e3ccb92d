/**
 * Game#to_hash and Game.from_hash: the seven fields of a game as a flat
 * record. to_hash uses symbol keys; once the record has been written as
 * JSON text and parsed back they are the strings used here, which are the
 * keys from_hash looks up.
 */
module Snapshots {
  import opened Wrappers
  import opened Boards
  import opened Games
  import opened Values

  const PlayerNameKey := "player_name"
  const SecretWordKey := "secret_word"
  const DisplayWordKey := "display_word"
  const WrongGuessesKey := "wrong_guesses"
  const AllGuessedLettersKey := "all_guessed_letters"
  const GuessesLeftKey := "guesses_left"
  const GameActiveKey := "game_active"

  const FieldKeys := {PlayerNameKey, SecretWordKey, DisplayWordKey, WrongGuessesKey,
                      AllGuessedLettersKey, GuessesLeftKey, GameActiveKey}

  /** to_hash. A board without a guessed-letter list writes null for it. */
  function ToHash(g: GameState): (r: Record)
    ensures r.Keys == FieldKeys
  {
    map[PlayerNameKey := Str(g.playerName),
        SecretWordKey := EncodeLetters(g.board.secret),
        DisplayWordKey := EncodeLetters(g.board.display),
        WrongGuessesKey := EncodeLetters(g.board.wrong),
        AllGuessedLettersKey := if g.board.guessed.Some? then EncodeLetters(g.board.guessed.value) else Null,
        GuessesLeftKey := Int(g.board.guessesLeft),
        GameActiveKey := Bool(g.active)]
  }

  /** `data['all_guessed_letters'] || []`: a missing, null or false entry is an empty list. */
  function DecodeGuessed(v: Value): (r: Option<seq<char>>)
    ensures Truthy(v) ==> r == DecodeLetters(v)
    ensures !Truthy(v) ==> r == Some([])
  {
    if Truthy(v) then DecodeLetters(v) else Some([])
  }

  /**
   * from_hash followed by Board.from_data. The fields are taken as they
   * are, with no check that they fit together. Ruby also takes fields of
   * other shapes without complaint; those decode to None here.
   */
  function FromHash(data: Record): (r: Option<GameState>)
    ensures r.Some? <==>
              && Lookup(data, PlayerNameKey).Str?
              && Lookup(data, GuessesLeftKey).Int?
              && DecodeLetters(Lookup(data, SecretWordKey)).Some?
              && DecodeLetters(Lookup(data, DisplayWordKey)).Some?
              && DecodeLetters(Lookup(data, WrongGuessesKey)).Some?
              && DecodeGuessed(Lookup(data, AllGuessedLettersKey)).Some?
    ensures r.Some? ==> Some(r.value.board.secret) == DecodeLetters(Lookup(data, SecretWordKey))
    ensures r.Some? ==> Some(r.value.board.display) == DecodeLetters(Lookup(data, DisplayWordKey))
    ensures r.Some? ==> Some(r.value.board.wrong) == DecodeLetters(Lookup(data, WrongGuessesKey))
    ensures r.Some? ==> r.value.board.guessed == DecodeGuessed(Lookup(data, AllGuessedLettersKey))
    ensures r.Some? ==> r.value.board.guessed.Some?
    ensures r.Some? && !Truthy(Lookup(data, AllGuessedLettersKey)) ==> r.value.board.guessed == Some([])
    ensures r.Some? ==> r.value.active == Truthy(Lookup(data, GameActiveKey))
    ensures r.Some? ==> Lookup(data, PlayerNameKey) == Str(r.value.playerName)
    ensures r.Some? ==> Lookup(data, GuessesLeftKey) == Int(r.value.board.guessesLeft)
  {
    var name := Lookup(data, PlayerNameKey);
    var guessesLeft := Lookup(data, GuessesLeftKey);
    if !name.Str? || !guessesLeft.Int? then None
    else
      var secret :- DecodeLetters(Lookup(data, SecretWordKey));
      var display :- DecodeLetters(Lookup(data, DisplayWordKey));
      var wrong :- DecodeLetters(Lookup(data, WrongGuessesKey));
      var guessed :- DecodeGuessed(Lookup(data, AllGuessedLettersKey));
      var board := BoardState(secret, display, wrong, guessesLeft.i, Some(guessed));
      Some(GameState(name.s, board, Truthy(Lookup(data, GameActiveKey))))
  }

  /**
   * Saving and restoring gives back every field; only a missing guessed
   * list comes back as an empty one.
   */
  lemma RoundTrip(g: GameState)
    ensures FromHash(ToHash(g)) == Some(g.(board := Normalized(g.board)))
  {
    var data := ToHash(g);
    DecodeEncodeLetters(g.board.secret);
    DecodeEncodeLetters(g.board.display);
    DecodeEncodeLetters(g.board.wrong);
    if g.board.guessed.Some? {
      DecodeEncodeLetters(g.board.guessed.value);
      assert Truthy(data[AllGuessedLettersKey]);
    }
  }

  /** A record written before the guessed-letter list existed restores with an empty list. */
  lemma LegacyRoundTrip(g: GameState)
    ensures FromHash(ToHash(g) - {AllGuessedLettersKey}) == Some(g.(board := g.board.(guessed := Some([]))))
  {
    DecodeEncodeLetters(g.board.secret);
    DecodeEncodeLetters(g.board.display);
    DecodeEncodeLetters(g.board.wrong);
  }

  /** from_hash as objects: a board from from_data inside a game. */
  method Load(data: Record) returns (game: Game?)
    ensures game == null <==> FromHash(data).None?
    ensures game != null ==> fresh(game) && fresh(game.board) && game.Snapshot() == FromHash(data).value
  {
    var state := FromHash(data);
    if state.None? {
      return null;
    }
    var s := state.value;
    var board := new Board.FromData(s.board.secret, s.board.display, s.board.wrong,
                                    s.board.guessesLeft, s.board.guessed);
    game := new Game.Restore(s.playerName, board, s.active);
  }
}
