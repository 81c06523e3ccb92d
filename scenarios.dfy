/** Two complete rounds worked through the model. */
module Scenarios {
  import opened Wrappers
  import opened Letters
  import opened Boards
  import opened Games

  /**
   * While the round is undecided, a line that reads as a letter not yet
   * tried goes to update_board and the loop moves to the next line.
   */
  lemma GuessStep(g: GameState, inputs: seq<string>, letter: char, after: BoardState)
    requires g.active && inputs != [] && |g.board.secret| <= |g.board.display|
    requires Placeholder in g.board.display && g.board.guessesLeft > 0
    requires Normalize(inputs[0]) == [letter] && IsAsciiUpper(letter)
    requires g.board.guessed.Some? && letter !in g.board.guessed.value
    requires ApplyGuess(g.board, letter).board == after
    ensures Run(g, inputs) == Run(g.(board := after), inputs[1..])
  {
  }

  /** A letter of the secret reveals its slots and changes nothing else but the guessed list. */
  lemma RevealStep(b: BoardState, letter: char)
    requires b.guessed.Some? && |b.secret| <= |b.display| && letter in b.secret
    ensures ApplyGuess(b, letter).board
         == b.(display := Reveal(b.secret, b.display, letter), guessed := Some(b.guessed.value + [letter]))
  {
  }

  /** A typed lower-case letter, with or without its newline, is read as its capital. */
  lemma LetterLine(c: char)
    requires IsAsciiLower(c)
    ensures Normalize([c, '\n']) == [UpcaseChar(c)] && Normalize([c]) == [UpcaseChar(c)]
  {
  }

  // The loop from each board of the "apple" round to its end, one guess at a time.

  lemma AppleFrom4()
    ensures Run(GameState("Ann", BoardState("APPLE", "APPL_", "Z", 5, Some("AZPL")), true), ["e\n"])
         == GameState("Ann", BoardState("APPLE", "APPLE", "Z", 5, Some("AZPLE")), false)
  {
    var b0 := BoardState("APPLE", "APPL_", "Z", 5, Some("AZPL"));
    var b1 := BoardState("APPLE", "APPLE", "Z", 5, Some("AZPLE"));
    assert ApplyGuess(b0, 'E').board == b1 by {
      RevealStep(b0, 'E');
      assert Reveal("APPLE", "APPL_", 'E') == "APPLE";
      assert "AZPL" + ['E'] == "AZPLE";
    }
    LetterLine('e');
    GuessStep(GameState("Ann", b0, true), ["e\n"], 'E', b1);
    assert ["e\n"][1..] == [];
  }

  lemma AppleFrom3()
    ensures Run(GameState("Ann", BoardState("APPLE", "APP__", "Z", 5, Some("AZP")), true), ["l\n", "e\n"])
         == GameState("Ann", BoardState("APPLE", "APPLE", "Z", 5, Some("AZPLE")), false)
  {
    var b0 := BoardState("APPLE", "APP__", "Z", 5, Some("AZP"));
    var b1 := BoardState("APPLE", "APPL_", "Z", 5, Some("AZPL"));
    assert ApplyGuess(b0, 'L').board == b1 by {
      RevealStep(b0, 'L');
      assert Reveal("APPLE", "APP__", 'L') == "APPL_";
      assert "AZP" + ['L'] == "AZPL";
    }
    LetterLine('l');
    GuessStep(GameState("Ann", b0, true), ["l\n", "e\n"], 'L', b1);
    assert ["l\n", "e\n"][1..] == ["e\n"];
    AppleFrom4();
  }

  lemma AppleFrom2()
    ensures Run(GameState("Ann", BoardState("APPLE", "A____", "Z", 5, Some("AZ")), true), ["p\n", "l\n", "e\n"])
         == GameState("Ann", BoardState("APPLE", "APPLE", "Z", 5, Some("AZPLE")), false)
  {
    var b0 := BoardState("APPLE", "A____", "Z", 5, Some("AZ"));
    var b1 := BoardState("APPLE", "APP__", "Z", 5, Some("AZP"));
    assert ApplyGuess(b0, 'P').board == b1 by {
      RevealStep(b0, 'P');
      assert Reveal("APPLE", "A____", 'P') == "APP__";
      assert "AZ" + ['P'] == "AZP";
    }
    LetterLine('p');
    GuessStep(GameState("Ann", b0, true), ["p\n", "l\n", "e\n"], 'P', b1);
    assert ["p\n", "l\n", "e\n"][1..] == ["l\n", "e\n"];
    AppleFrom3();
  }

  lemma AppleFrom1()
    ensures Run(GameState("Ann", BoardState("APPLE", "A____", [], 6, Some("A")), true), ["z\n", "p\n", "l\n", "e\n"])
         == GameState("Ann", BoardState("APPLE", "APPLE", "Z", 5, Some("AZPLE")), false)
  {
    var b0 := BoardState("APPLE", "A____", [], 6, Some("A"));
    var b1 := BoardState("APPLE", "A____", "Z", 5, Some("AZ"));
    assert ApplyGuess(b0, 'Z').board == b1 by {
      assert 'Z' !in "APPLE" && 'Z' !in "A";
      assert "A" + ['Z'] == "AZ";
      assert [] + ['Z'] == "Z";
    }
    LetterLine('z');
    GuessStep(GameState("Ann", b0, true), ["z\n", "p\n", "l\n", "e\n"], 'Z', b1);
    assert ["z\n", "p\n", "l\n", "e\n"][1..] == ["p\n", "l\n", "e\n"];
    AppleFrom2();
  }

  lemma AppleFrom0()
    ensures Run(GameState("Ann", BoardState("APPLE", "_____", [], 6, Some([])), true), ["a\n", "z\n", "p\n", "l\n", "e\n"])
         == GameState("Ann", BoardState("APPLE", "APPLE", "Z", 5, Some("AZPLE")), false)
  {
    var b0 := BoardState("APPLE", "_____", [], 6, Some([]));
    var b1 := BoardState("APPLE", "A____", [], 6, Some("A"));
    assert ApplyGuess(b0, 'A').board == b1 by {
      RevealStep(b0, 'A');
      assert Reveal("APPLE", "_____", 'A') == "A____";
      assert [] + ['A'] == "A";
    }
    LetterLine('a');
    GuessStep(GameState("Ann", b0, true), ["a\n", "z\n", "p\n", "l\n", "e\n"], 'A', b1);
    assert ["a\n", "z\n", "p\n", "l\n", "e\n"][1..] == ["z\n", "p\n", "l\n", "e\n"];
    AppleFrom1();
  }

  /** "apple" with six guesses, lines A, Z, P, L, E: won with one miss. */
  lemma AppleRound()
    ensures Run(GameState("Ann", Fresh("apple", 6), true), ["a\n", "z\n", "p\n", "l\n", "e\n"])
         == GameState("Ann", BoardState("APPLE", "APPLE", "Z", 5, Some("AZPLE")), false)
  {
    assert Fresh("apple", 6) == BoardState("APPLE", "_____", [], 6, Some([])) by {
      assert Upcase("apple") == "APPLE";
    }
    AppleFrom0();
  }

  /** "cat" with one guess, line X: lost with nothing left. */
  lemma CatRound()
    ensures var e := Run(GameState("Bo", Fresh("cat", 1), true), ["x"]);
            e == GameState("Bo", BoardState("CAT", "___", "X", 0, Some("X")), false) &&
            StatusOf(e.board) == Lost
  {
    var b0 := BoardState("CAT", "___", [], 1, Some([]));
    var b1 := BoardState("CAT", "___", "X", 0, Some("X"));
    assert Fresh("cat", 1) == b0;
    LetterLine('x');
    assert ApplyGuess(b0, 'X').board == b1 by {
      assert [] + ['X'] == "X";
    }
    GuessStep(GameState("Bo", b0, true), ["x"], 'X', b1);
    assert ["x"][1..] == [];
  }

  /**
   * "apple", lines save, 2, a: the two lines after the save request are
   * handle_save's format choice and file name, so no letter is guessed.
   */
  lemma SaveRound()
    ensures Run(GameState("Ann", Fresh("apple", 6), true), ["save\n", "2\n", "a\n"])
         == GameState("Ann", BoardState("APPLE", "_____", [], 6, Some([])), true)
  {
    var b0 := BoardState("APPLE", "_____", [], 6, Some([]));
    assert Fresh("apple", 6) == b0;
    ChompTerminators("save");
    assert Upcase("save") == SaveKeyword;
    assert Classify("save\n", b0) == SaveRequest;
  }
}
