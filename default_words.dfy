/**
  The built-in word lists used by the default configuration. The crate ships
  long lists; their exact contents are static data outside this model, and a
  short excerpt stands in for them. Nothing proved about the default
  configuration depends on which words are listed, only on `WordList`:
  the list is non-empty and its words are non-empty and free of `-`.
 */
module DefaultWords {

  const Adjectives: seq<string> := [
    "aged", "ancient", "autumn", "billowing", "bitter", "black", "blue", "bold",
    "calm", "cold", "crimson", "damp", "dark", "dawn", "empty", "silent"
  ]

  const Nouns: seq<string> := [
    "art", "band", "bar", "base", "bird", "block", "boat", "bonus",
    "breeze", "brook", "cloud", "dew", "dream", "field", "fire", "sound"
  ]

  /** A word list every name can be split back into: non-empty words free of `d`. */
  predicate WordList(words: seq<string>, d: char)
  {
    |words| > 0 && forall i :: 0 <= i < |words| ==> words[i] != "" && d !in words[i]
  }

  lemma DefaultListsAreWordLists()
    ensures WordList(Adjectives, '-') && WordList(Nouns, '-')
  {
  }
}
