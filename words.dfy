/** The word manager: the dictionary of candidate secrets. */
module Words {
  import opened Wrappers
  import opened Letters

  /** Bounds of `between?(5, 12)` in load_dictionary, both inclusive. */
  const MinLength := 5
  const MaxLength := 12

  predicate Playable(w: string) {
    MinLength <= |w| <= MaxLength
  }

  /** The chomped lines whose length is in the playable range, in file order. */
  function KeepPlayable(lines: seq<string>): (r: seq<string>)
    ensures |r| <= |lines|
    ensures forall i :: 0 <= i < |r| ==> Playable(r[i])
  {
    if lines == [] then []
    else
      var w := Chomp(lines[|lines| - 1]);
      KeepPlayable(lines[..|lines| - 1]) + (if Playable(w) then [w] else [])
  }

  /** Every kept word is playable and comes from some line. */
  lemma {:induction false} KeptWordsComeFromLines(lines: seq<string>, w: string)
    requires w in KeepPlayable(lines)
    ensures Playable(w) && exists j :: 0 <= j < |lines| && Chomp(lines[j]) == w
  {
    var n := |lines| - 1;
    var init := lines[..n];
    if w in KeepPlayable(init) {
      KeptWordsComeFromLines(init, w);
      var j :| 0 <= j < |init| && Chomp(init[j]) == w;
      assert lines[j] == init[j];
    } else {
      assert Chomp(lines[n]) == w;
    }
  }

  /** Every playable chomped line is kept. */
  lemma {:induction false} PlayableLinesAreKept(lines: seq<string>, j: nat)
    requires j < |lines| && Playable(Chomp(lines[j]))
    ensures Chomp(lines[j]) in KeepPlayable(lines)
  {
    var n := |lines| - 1;
    if j < n {
      var init := lines[..n];
      assert init[j] == lines[j];
      PlayableLinesAreKept(init, j);
    }
  }

  /** Filtering distributes over concatenation: file order is preserved. */
  lemma {:induction false} KeepPlayableAppend(a: seq<string>, b: seq<string>)
    ensures KeepPlayable(a + b) == KeepPlayable(a) + KeepPlayable(b)
  {
    if b == [] {
      assert a + b == a;
    } else {
      var init := b[..|b| - 1];
      KeepPlayableAppend(a, init);
      assert (a + b)[..|a + b| - 1] == a + init;
      assert (a + b)[|a + b| - 1] == b[|b| - 1];
    }
  }

  /** Ruby's class Word: the list of candidate secrets it has loaded. */
  class Word {
    var words: seq<string>

    constructor ()
      ensures words == []
    {
      words := [];
    }

    /**
     * load_dictionary: pushes each playable chomped line of the dictionary
     * file onto the list and returns the list. Reading the file is left to
     * the caller, who passes its lines (with their terminators).
     */
    method LoadDictionary(lines: seq<string>) returns (loaded: seq<string>)
      modifies this
      ensures words == old(words) + KeepPlayable(lines)
      ensures loaded == words
    {
      var i := 0;
      while i < |lines|
        invariant 0 <= i <= |lines|
        invariant words == old(words) + KeepPlayable(lines[..i])
      {
        var word := Chomp(lines[i]);
        if Playable(word) {
          words := words + [word];
        }
        assert lines[..i + 1][..i] == lines[..i];
        assert KeepPlayable(lines[..i + 1]) == KeepPlayable(lines[..i]) + (if Playable(word) then [word] else []);
        i := i + 1;
      }
      assert lines[..|lines|] == lines;
      loaded := words;
    }

    /**
     * random_word: Array#sample. The random choice is the parameter `pick`;
     * an empty list gives nil.
     */
    function RandomWord(pick: nat): (w: Option<string>)
      reads this
      ensures w.Some? <==> |words| > 0
      ensures w.Some? ==> w.value in words
    {
      if |words| == 0 then None else Some(words[pick % |words|])
    }
  }
}
