/** The values a saved record holds once its JSON text has been parsed back. */
module Values {
  import opened Wrappers

  datatype Value = Null | Bool(b: bool) | Int(i: int) | Str(s: string) | List(items: seq<Value>)

  /** A record with string keys, as JSON.parse returns it. */
  type Record = map<string, Value>

  /** `data[key]`: a missing key reads as nil. */
  function Lookup(data: Record, key: string): (v: Value)
    ensures key in data ==> v == data[key]
    ensures key !in data ==> v == Null
  {
    if key in data then data[key] else Null
  }

  /** Ruby truthiness: everything except nil and false. */
  predicate Truthy(v: Value) {
    v != Null && v != Bool(false)
  }

  /** A list of letters as an array of one-character strings. */
  function LetterItems(letters: seq<char>): (r: seq<Value>)
    ensures |r| == |letters|
    ensures forall i :: 0 <= i < |r| ==> r[i].Str? && |r[i].s| == 1
  {
    if letters == [] then [] else [Str([letters[0]])] + LetterItems(letters[1..])
  }

  function EncodeLetters(letters: seq<char>): Value {
    List(LetterItems(letters))
  }

  /** The letters of an array of one-character strings; anything else fails. */
  function DecodeItems(items: seq<Value>): (r: Option<seq<char>>)
    ensures r.Some? ==> |r.value| == |items|
    ensures r.Some? <==> forall i :: 0 <= i < |items| ==> items[i].Str? && |items[i].s| == 1
    ensures r.Some? ==> forall i :: 0 <= i < |items| ==> r.value[i] == items[i].s[0]
  {
    if items == [] then Some([])
    else if items[0].Str? && |items[0].s| == 1 then
      var rest :- DecodeItems(items[1..]);
      Some([items[0].s[0]] + rest)
    else None
  }

  function DecodeLetters(v: Value): Option<seq<char>> {
    if v.List? then DecodeItems(v.items) else None
  }

  lemma {:induction false} DecodeEncodeLetters(letters: seq<char>)
    ensures DecodeLetters(EncodeLetters(letters)) == Some(letters)
  {
    if letters != [] {
      assert LetterItems(letters)[1..] == LetterItems(letters[1..]);
      DecodeEncodeLetters(letters[1..]);
      assert [letters[0]] + letters[1..] == letters;
    }
  }
}
