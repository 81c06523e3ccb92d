# Hangman in Dafny

A Dafny model of the core of a terminal Hangman game written in Ruby (`hangman.rb`).
A player guesses the letters of a secret word drawn from a dictionary.
Correct letters are revealed in a masked display. Wrong letters go on a wrong list and each one costs a guess.
The round ends in a win when no slot is masked and in a loss when no guesses are left.
A game can also be turned into a flat record (`to_hash`) and rebuilt from one (`from_hash`).

The model follows the program's own structure:

- `Words`: the word manager (`class Word`). It loads the dictionary lines, keeps the chomped lines of length 5 to 12, and picks one.
- `Boards`: the board (`class Board`) and the value `BoardState` of its five fields.
  The pure functions `Fresh`, `ApplyGuess` and `StatusOf` specify `initialize`, `update_board` and the two end tests.
  The class updates its fields in place, and its methods are proved equal to those functions.
- `Games`: `class Game` and the play loop.
  `Classify` sorts one input line, `Turn` is one pass of the loop that reads input, and `Run` is the loop over a list of lines.
  `Game.TakeTurn` and `Game.Play` are the imperative loop, proved equal to `Turn` and `Run`.
- `Rounds`: the invariant every board reachable in play keeps, and the lemmas that the loop preserves it.
  The display is the secret masked by the guessed letters. The wrong list is the guessed letters missing from the secret, in order and without repeats. The budget is the maximum less the number of wrong letters, and it is never negative.
- `Scenarios`: whole rounds worked through the model ("apple" won with one miss, "cat" lost, and a save request followed by its two answers).
- `Values` and `Snapshots`: the record written by `to_hash` and read by `from_hash`, as a map from string keys to JSON-like values, and the round-trip lemmas.
- `Letters`, `Wrappers`: `String#upcase`, `String#chomp`, and an `Option` type for Ruby's nil.

Inputs that the program reads from a terminal or a file are parameters:

- the dictionary's lines, with their line terminators;
- the random choice of `Array#sample`, as a number `pick`;
- the lines the player types, as a list `inputs`. After a save request, the next two lines are the format choice and the file name that `handle_save` reads.

In these places the model follows what the code does:

- `update_board` decrements `guesses_left` with no floor at zero. The floor in play comes from the loop testing `out_of_guesses?` before each guess (`RunKeepsBudget`).
- An empty dictionary is not reported as an error. `random_word` returns nil and `Board.new(nil)` then fails.
- Restoring a game checks nothing about whether its fields fit together.
- The guessed letters are an ordered list, not a set.

## Model

| member | source | states |
|---|---|---|
| Letters.UpcaseChar | hangman.rb:194 | a lower-case ASCII letter becomes its own capital (code point less 32); the dotless i becomes I and the long s becomes S; every other character is left as it is |
| Letters.Upcase | hangman.rb:91 | upper-casing keeps the length and maps every character by UpcaseChar |
| Letters.Chomp | hangman.rb:62 | the result is a prefix of the line, at most two characters shorter, and the line itself when it has no terminator |
| Letters.ChompTerminators | hangman.rb:62 | a text read with "\n", "\r\n" or "\r" (or none) chomps back to the text |
| Words.KeepPlayable | hangman.rb:59-67 | every kept word has a length between 5 and 12 inclusive, and no more words are kept than there are lines |
| Words.KeptWordsComeFromLines | hangman.rb:59-67 | every kept word is playable and is the chomp of some line |
| Words.PlayableLinesAreKept | hangman.rb:59-67 | every line whose chomp is playable is kept |
| Words.KeepPlayableAppend | hangman.rb:59-67 | filtering two files in a row gives the two filtered lists in a row, so file order is preserved |
| Words.Word.constructor | hangman.rb:55-57 | a new word manager holds no words |
| Words.Word.LoadDictionary | hangman.rb:59-67 | loading appends the filtered lines to the words already held and returns the whole list |
| Words.Word.RandomWord | hangman.rb:69-71 | a word is returned iff the list is non-empty, and it is one of the list's words |
| Boards.Fresh | hangman.rb:90-96 | a fresh board has the upper-cased secret, a display of only "_" of the same length, empty wrong and guessed lists and the full budget |
| Boards.Normalized | hangman.rb:98-101 | the repaired board's guessed list is the old one, or empty when it was nil; the secret, display, wrong list and budget are unchanged, and a board that had a list is returned as it is |
| Boards.ApplyGuess | hangman.rb:103-116 | the letter is always added to the guessed list. A letter of the secret reports true, reveals every matching slot and changes no other slot, the wrong list or the budget. Any other letter reports false, leaves the display, joins the wrong list once and costs exactly one guess. A duplicate-free wrong list stays duplicate-free |
| Boards.StatusOf | hangman.rb:126-132 | won iff no slot is "_"; lost iff the word is incomplete and the budget is at most 0; a complete word wins even with no guesses left |
| Boards.Board.constructor | hangman.rb:90-96 | the new board's fields are those of Fresh |
| Boards.Board.FromData | hangman.rb:135-143 | the fields are stored as given, with a nil guessed list replaced by an empty one |
| Boards.Board.AlreadyGuessed | hangman.rb:98-101 | reports whether the letter was guessed, a nil list counting as empty, and leaves the list non-nil |
| Boards.Board.UpdateBoard | hangman.rb:103-116 | the slot-by-slot update leaves exactly the board ApplyGuess describes and returns its verdict |
| Games.Classify | hangman.rb:194-209 | the upper-cased chomped line is a save request iff it is SAVE, malformed iff it is not SAVE and not one letter A-Z, a repeat iff it is one letter already guessed, and otherwise a new guess |
| Games.Turn | hangman.rb:192-216 | save requests, malformed lines and repeated letters leave the board unchanged; a new letter is guessed and reported good iff it is in the secret; only a miss costs a guess |
| Games.Run | hangman.rb:176-232 | the loop keeps the player and the secret, never revives a finished game, and ends a game only when it is won or lost |
| Games.Game.constructor | hangman.rb:149-158 | a new game is active with a fresh six-guess board on some word of the filtered dictionary |
| Games.Game.Restore | hangman.rb:259-276 | the restored game holds the given name, board and active flag |
| Games.Game.TakeTurn | hangman.rb:192-216 | one read of input changes the board exactly as Turn says and returns its outcome |
| Games.Game.Play | hangman.rb:176-232 | the loop leaves the game exactly as Run says |
| Rounds.Misses | hangman.rb:111-113 | a letter is a miss iff it was guessed and is not in the secret; distinct guesses give distinct misses |
| Rounds.FreshReachable | hangman.rb:90-96 | a fresh board satisfies the play invariant |
| Rounds.GuessPreservesReachable | hangman.rb:103-116 | guessing a new letter keeps the display, the wrong list and the budget determined by the guessed letters |
| Rounds.TurnPreservesReachable | hangman.rb:192-216 | every kind of input line keeps the play invariant |
| Rounds.RepeatChangesNothing | hangman.rb:206-209 | after a new letter is guessed, the same line is classified as a repeat and leaves the board and the budget unchanged |
| Rounds.RunPreservesReachable | hangman.rb:176-217 | a whole run of the loop keeps the play invariant |
| Rounds.RunKeepsBudget | hangman.rb:186-190 | because out-of-guesses is tested before each guess, a run that starts with a non-negative budget never drives it below 0 |
| Rounds.WonIffAllLettersGuessed | hangman.rb:126-128 | on a reachable board whose secret has no "_", the word is complete iff every letter of the secret was guessed |
| Rounds.PlayFromFresh | hangman.rb:176-217 | after any input from a fresh board the invariant holds, the wrong list has no repeats and the budget is the maximum less the wrong letters and at least 0 |
| Scenarios.AppleRound | hangman.rb:176-217 | "apple" with lines a, z, p, l, e ends won with display APPLE, wrong list Z and 5 guesses left |
| Scenarios.CatRound | hangman.rb:176-217 | "cat" with one guess and line x ends lost with wrong list X and 0 guesses left |
| Scenarios.SaveRound | hangman.rb:194-232 | "apple" with lines save, 2, a: the lines 2 and a are handle_save's answers, so nothing is guessed and the game stays active on an unchanged board |
| Values.Lookup | hangman.rb:266-274 | a key present in the record reads as its value and a missing key reads as nil |
| Values.LetterItems | hangman.rb:248-251 | a letter list is written as one one-character string per letter |
| Values.DecodeItems | hangman.rb:268-272 | an array decodes iff every element is a one-character string, and then to the letters of those strings, in order |
| Values.DecodeEncodeLetters | hangman.rb:245-277 | decoding an encoded letter list gives it back |
| Snapshots.ToHash | hangman.rb:245-255 | the record has exactly the seven keys of to_hash |
| Snapshots.DecodeGuessed | hangman.rb:272 | a truthy guessed-letter entry decodes as a letter list; a missing, null or false one reads as an empty list |
| Snapshots.FromHash | hangman.rb:258-277 | a record restores iff the name is a string, the budget an integer, the three letter lists decode and the guessed entry decodes. The restored name, secret, display, wrong list and budget are the record's as they are, with no check that they fit together; the guessed list is the decoded entry, empty when it is missing, null or false; the active flag is the truthiness of game_active |
| Snapshots.RoundTrip | hangman.rb:245-277 | from_hash of to_hash restores the name, secret, display, wrong list, guessed list, budget and active flag; only a nil guessed list comes back empty |
| Snapshots.LegacyRoundTrip | hangman.rb:272 | a record without all_guessed_letters restores every other field and an empty guessed list |
| Snapshots.Load | hangman.rb:258-277 | the objects built from a record hold exactly the fields FromHash decodes |

## Left out

- File and directory I/O is not modelled: the saves directory, `File.open`, `Dir.entries`, and `load_from_yaml`/`load_from_json` returning nil for a missing file. Reading the dictionary file is replaced by its lines as a parameter.
- YAML and JSON text are library serialisers and are not modelled. YAML is used by `save_to_yaml`/`load_from_yaml`; `JSON.pretty_generate`/`JSON.parse` surround `to_hash`/`from_hash`. The record is modelled as it is after a JSON round trip, with string keys. The model assumes that round trip returns the values `to_hash` wrote.
- Terminal I/O is not modelled: `Player#make_guess`, `Board#display`, `play_again?`, `start_game`, `load_game` and every `puts`. `handle_save` is modelled only as reading its two answer lines and leaving the game unchanged; the file it writes for a format choice of 1 or 2 is not modelled.
- The player is kept by name only. `Game.new` without a name, which asks for the name inside `play`, is not modelled.
- `@word_manager` is not kept by the game, because nothing in the core reads it after the secret is drawn.
- Letters are characters, where Ruby stores one-character strings.
- Letters.Upcase: maps the ASCII letters and the two non-ASCII letters whose capitals are ASCII. Other Unicode case mappings are not modelled. They never turn an input line into a valid guess or into SAVE. They do change the secret of a non-ASCII dictionary word: Ruby turns "café" into CAFÉ and "straße" into the seven letters STRASSE, where the model keeps "é" and "ß" as they are. The shipped dictionary is ASCII.
- Words.Word.RandomWord: the choice is the parameter `pick`, not a uniform random draw.
- Games.Game.constructor: requires a non-empty filtered dictionary. With an empty one Ruby passes nil to `Board.new`, which fails.
- Boards.ApplyGuess: requires the display to be at least as long as the secret. This only matters for a restored board: Ruby grows a shorter display with nil slots, and that is not modelled. The same requirement is carried by Boards.Board.UpdateBoard, Games.Turn, Games.Run, Games.Game.TakeTurn and Games.Game.Play.
- Boards.Board.UpdateBoard: requires a guessed list. Ruby fails on a nil list, but `play` always calls `already_guessed?` first, and that repairs it.
- Snapshots.FromHash: a record whose name is not a string, whose budget is not an integer, or whose letter lists are not arrays of one-character strings decodes to None. Ruby accepts such a record and misbehaves later, if at all.
- Games.Run: stops when the list of input lines runs out, where Ruby would wait for more. It also stops when the lines run out inside `handle_save`, where Ruby fails on a nil line.
