/** The string operations of Ruby's core library that the game relies on. */
module Letters {

  /** The mark shown in the display for a letter not yet revealed. */
  const Placeholder: char := '_'

  predicate IsAsciiUpper(c: char) {
    'A' <= c <= 'Z'
  }

  predicate IsAsciiLower(c: char) {
    'a' <= c <= 'z'
  }

  /**
   * String#upcase on one character. Besides the ASCII letters, the dotless i
   * (U+0131) and the long s (U+017F) are the characters whose upper case is
   * an ASCII letter; every other character is kept as it is.
   */
  function UpcaseChar(c: char): (u: char)
    ensures IsAsciiLower(c) ==> IsAsciiUpper(u) && u as int == c as int - 32
    ensures c == '\U{131}' ==> u == 'I'
    ensures c == '\U{17F}' ==> u == 'S'
    ensures !IsAsciiLower(c) && c != '\U{131}' && c != '\U{17F}' ==> u == c
  {
    if IsAsciiLower(c) then (c as int - 32) as char
    else if c == '\U{131}' then 'I'
    else if c == '\U{17F}' then 'S'
    else c
  }

  /** String#upcase: every character mapped by UpcaseChar, the length kept. */
  function Upcase(s: string): (r: string)
    ensures |r| == |s|
    ensures forall i :: 0 <= i < |s| ==> r[i] == UpcaseChar(s[i])
  {
    if s == [] then [] else [UpcaseChar(s[0])] + Upcase(s[1..])
  }

  predicate EndsWithTerminator(s: string) {
    |s| > 0 && (s[|s| - 1] == '\n' || s[|s| - 1] == '\r')
  }

  /**
   * String#chomp with the default record separator: removes one trailing
   * "\r\n", "\n" or "\r", if there is one.
   */
  function Chomp(line: string): (r: string)
    ensures r <= line
    ensures |line| - 2 <= |r|
    ensures !EndsWithTerminator(line) ==> r == line
  {
    if |line| >= 2 && line[|line| - 2] == '\r' && line[|line| - 1] == '\n' then line[..|line| - 2]
    else if EndsWithTerminator(line) then line[..|line| - 1]
    else line
  }

  /** A line read with any of the three terminators chomps back to its text. */
  lemma ChompTerminators(text: string)
    requires !EndsWithTerminator(text)
    ensures Chomp(text) == text
    ensures Chomp(text + "\n") == text
    ensures Chomp(text + "\r\n") == text
    ensures Chomp(text + "\r") == text
  {
    ChompSingle(text, '\n');
    ChompSingle(text, '\r');
    assert (text + "\r\n")[..|text|] == text;
  }

  lemma ChompSingle(text: string, t: char)
    requires !EndsWithTerminator(text) && (t == '\n' || t == '\r')
    ensures Chomp(text + [t]) == text
  {
    var line := text + [t];
    if |text| > 0 {
      assert line[|line| - 2] == text[|text| - 1];
    }
    assert line[..|line| - 1] == text;
  }
}
