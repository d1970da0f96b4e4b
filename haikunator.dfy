/**
  Heroku-style name generation: a random adjective, a random noun and a
  random token, the empty ones dropped, the rest joined with a delimiter
  ("flying-bat-4821").

  The specification is a function of the configuration and the generator's
  raw output stream (`Select`, `Name`); the class `Haikunator` holds the
  configuration and the generator and its method `Haikunate` is proved to
  produce `Name` and to consume exactly `Consumed` draws.
 */
module Names {
  import opened Random
  import opened Parts
  import DefaultWords

  /** The alphabet a token is drawn from when `tokenHex` is set. */
  const HexDigits: string := "0123456789abcdef"

  /** The configuration of a generator (every public field but the generator itself). */
  datatype Settings = Settings(
    adjectives: seq<string>,
    nouns: seq<string>,
    delimiter: string,
    tokenLength: nat,
    tokenHex: bool,
    tokenChars: string)

  /** The parameters a generator is built from: a generator and a configuration. */
  datatype Params = Params(
    rng: Rng,
    adjectives: seq<string>,
    nouns: seq<string>,
    delimiter: string,
    tokenLength: nat,
    tokenHex: bool,
    tokenChars: string)
  {
    function Config(): Settings
    {
      Settings(adjectives, nouns, delimiter, tokenLength, tokenHex, tokenChars)
    }
  }

  /** The default parameters around a given generator (the thread-local one in the crate). */
  function DefaultParams(rng: Rng): (r: Params)
    ensures r.rng == rng
    ensures r.delimiter == "-" && r.tokenLength == 4 && !r.tokenHex && r.tokenChars == "0123456789"
    ensures DefaultWords.WordList(r.adjectives, '-') && DefaultWords.WordList(r.nouns, '-')
  {
    DefaultWords.DefaultListsAreWordLists();
    Params(rng, DefaultWords.Adjectives, DefaultWords.Nouns, "-", 4, false, "0123456789")
  }

  /** The alphabet tokens are drawn from: hex digits if `tokenHex`, else `tokenChars`. */
  function Alphabet(s: Settings): (r: string)
    ensures s.tokenHex ==> r == HexDigits && |r| == 16
    ensures !s.tokenHex ==> r == s.tokenChars
    ensures |r| == 0 <==> !s.tokenHex && s.tokenChars == ""
  {
    if s.tokenHex then HexDigits else s.tokenChars
  }

  /** With `tokenHex` set, `tokenChars` is ignored: whatever it holds, the segments, the draws and the name are the same. */
  lemma TokenCharsIgnoredWhenHex(s: Settings, chars: string, src: Stream, pos: nat)
    requires s.tokenHex
    ensures Alphabet(s) == HexDigits
    ensures Select(s.(tokenChars := chars), src, pos) == Select(s, src, pos)
    ensures Name(s.(tokenChars := chars), src, pos) == Name(s, src, pos)
  {
    assert Alphabet(s.(tokenChars := chars)) == Alphabet(s);
  }

  /** How many draws one name takes: one per non-empty word list, `tokenLength` for a non-empty alphabet. */
  function Consumed(s: Settings): nat
  {
    (if |s.adjectives| > 0 then 1 else 0)
    + (if |s.nouns| > 0 then 1 else 0)
    + (if |Alphabet(s)| > 0 then s.tokenLength else 0)
  }

  /** A word picked from `words` with draw number `pos`; no draw and "" when the list is empty. */
  function Pick(words: seq<string>, src: Stream, pos: nat): (r: (string, nat))
    ensures |words| > 0 ==> r.0 in words && r.1 == pos + 1
    ensures |words| == 0 ==> r == ("", pos)
  {
    if |words| > 0 then (words[Draw(src, pos, |words|)], pos + 1) else ("", pos)
  }

  /** `n` characters of a non-empty alphabet, character i chosen by its position in the alphabet by draw `pos + i`. */
  function Chars(alphabet: string, n: nat, src: Stream, pos: nat): (r: string)
    requires |alphabet| > 0
    ensures |r| == n
    ensures forall i :: 0 <= i < n ==> r[i] == alphabet[Draw(src, pos + i, |alphabet|)]
  {
    if n == 0 then ""
    else Chars(alphabet, n - 1, src, pos) + [alphabet[Draw(src, pos + n - 1, |alphabet|)]]
  }

  /** The token and the next draw: `length` characters of the alphabet, or "" and no draw when it is empty. */
  function Token(alphabet: string, length: nat, src: Stream, pos: nat): (r: (string, nat))
    ensures |alphabet| > 0 ==> |r.0| == length && r.1 == pos + length
    ensures |alphabet| == 0 ==> r == ("", pos)
  {
    if |alphabet| > 0 then (Chars(alphabet, length, src, pos), pos + length) else ("", pos)
  }

  /** The three segments of a name and the number of the next draw after them. */
  datatype Segments = Segments(adjective: string, noun: string, token: string, next: nat)

  /** The segments one call produces, drawing from `src` at `pos` onwards. */
  function Select(s: Settings, src: Stream, pos: nat): (g: Segments)
    ensures g.next == pos + Consumed(s)
  {
    var adjective := Pick(s.adjectives, src, pos);
    var noun := Pick(s.nouns, src, adjective.1);
    var token := Token(Alphabet(s), s.tokenLength, src, noun.1);
    Segments(adjective.0, noun.0, token.0, token.1)
  }

  /**
    What the segments are made of: a listed word or "" for an empty list;
    a token of hex digits whatever `tokenChars` holds when `tokenHex` is set,
    of characters of `tokenChars` otherwise, and "" for an empty alphabet.
   */
  lemma SelectSegments(s: Settings, src: Stream, pos: nat)
    ensures var g := Select(s, src, pos);
      && (|s.adjectives| > 0 ==> g.adjective in s.adjectives)
      && (|s.adjectives| == 0 ==> g.adjective == "")
      && (|s.nouns| > 0 ==> g.noun in s.nouns)
      && (|s.nouns| == 0 ==> g.noun == "")
      && (s.tokenHex ==> |g.token| == s.tokenLength)
      && (s.tokenHex ==> forall i :: 0 <= i < |g.token| ==> g.token[i] in HexDigits)
      && (!s.tokenHex && |s.tokenChars| > 0 ==> |g.token| == s.tokenLength)
      && (!s.tokenHex ==> forall i :: 0 <= i < |g.token| ==> g.token[i] in s.tokenChars)
      && (!s.tokenHex && |s.tokenChars| == 0 ==> g.token == "")
  {
  }

  /** The three steps of `Select`, one draw group at a time. */
  lemma SelectSteps(s: Settings, src: Stream, pos: nat, adjective: (string, nat), noun: (string, nat), token: (string, nat))
    requires adjective == Pick(s.adjectives, src, pos)
    requires noun == Pick(s.nouns, src, adjective.1)
    requires token == Token(Alphabet(s), s.tokenLength, src, noun.1)
    ensures Select(s, src, pos) == Segments(adjective.0, noun.0, token.0, token.1)
  {
  }

  /**
    The name one call produces: the non-empty segments, in order, joined
    with the delimiter. It begins with the adjective and ends with the token
    whenever these are drawn non-empty.
   */
  function Name(s: Settings, src: Stream, pos: nat): (r: string)
    ensures var g := Select(s, src, pos);
      && (g.adjective != "" ==> g.adjective <= r)
      && (g.token != "" ==> |g.token| <= |r| && r[|r| - |g.token|..] == g.token)
  {
    var g := Select(s, src, pos);
    Assemble(g.adjective, g.noun, g.token, s.delimiter)
  }

  /** Retain the non-empty segments and join them: a non-empty adjective leads, a non-empty token ends. */
  function Assemble(adjective: string, noun: string, token: string, delimiter: string): (r: string)
    ensures adjective != "" ==> adjective <= r
    ensures token != "" ==> |token| <= |r| && r[|r| - |token|..] == token
  {
    var segments := [adjective, noun, token];
    NonEmptyKeepsFirst(segments);
    NonEmptyKeepsLast(segments);
    Join(NonEmpty(segments), delimiter)
  }

  /** A name is empty exactly when all three segments are. */
  lemma EmptyNameIffNoSegments(s: Settings, src: Stream, pos: nat)
    ensures var g := Select(s, src, pos);
      Name(s, src, pos) == "" <==> g.adjective == "" && g.noun == "" && g.token == ""
  {
    var g := Select(s, src, pos);
    var segments := [g.adjective, g.noun, g.token];
    var parts := NonEmpty(segments);
    if parts != [] {
      assert parts[0] in parts;
      assert parts[0] != "" && parts[0] <= Name(s, src, pos);
    } else {
      assert g.adjective !in parts && g.noun !in parts && g.token !in parts;
      assert g.adjective in segments && g.noun in segments && g.token in segments;
    }
  }

  /**
    Draws are taken in a fixed order: the adjective's first (if any), then
    the noun's, then one per token character.
   */
  lemma DrawOrder(s: Settings, src: Stream, pos: nat)
    ensures var g := Select(s, src, pos);
      var a := if |s.adjectives| > 0 then 1 else 0;
      var n := if |s.nouns| > 0 then 1 else 0;
      && (|s.adjectives| > 0 ==> g.adjective == s.adjectives[Draw(src, pos, |s.adjectives|)])
      && (|s.nouns| > 0 ==> g.noun == s.nouns[Draw(src, pos + a, |s.nouns|)])
      && (|Alphabet(s)| > 0 ==>
            forall i :: 0 <= i < |g.token| ==> g.token[i] == Alphabet(s)[Draw(src, pos + a + n + i, |Alphabet(s)|)])
  {
  }

  /** Two streams that agree on draws `pos .. pos + count - 1`. */
  ghost predicate Agree(src1: Stream, src2: Stream, pos: nat, count: nat)
  {
    forall k :: pos <= k < pos + count ==> src1(k) == src2(k)
  }

  lemma CharsAgree(alphabet: string, n: nat, src1: Stream, src2: Stream, pos: nat)
    requires |alphabet| > 0
    requires Agree(src1, src2, pos, n)
    ensures Chars(alphabet, n, src1, pos) == Chars(alphabet, n, src2, pos)
  {
  }

  /**
    A name depends on nothing but the configuration and the `Consumed`
    draws it takes: generators answering the same draws give the same name.
    This is what makes seeded runs reproducible.
   */
  lemma SameDrawsSameName(s: Settings, src1: Stream, src2: Stream, pos: nat)
    requires Agree(src1, src2, pos, Consumed(s))
    ensures Select(s, src1, pos) == Select(s, src2, pos)
    ensures Name(s, src1, pos) == Name(s, src2, pos)
  {
    SameDrawsSameSegments(s, src1, src2, pos);
  }

  /** The segments, one draw group at a time: each group reads only draws on which the streams agree. */
  lemma SameDrawsSameSegments(s: Settings, src1: Stream, src2: Stream, pos: nat)
    requires Agree(src1, src2, pos, Consumed(s))
    ensures Select(s, src1, pos) == Select(s, src2, pos)
  {
    var adjective := Pick(s.adjectives, src1, pos);
    if |s.adjectives| > 0 {
      assert src1(pos) == src2(pos);
    }
    assert adjective == Pick(s.adjectives, src2, pos);
    var noun := Pick(s.nouns, src1, adjective.1);
    if |s.nouns| > 0 {
      assert src1(adjective.1) == src2(adjective.1);
    }
    assert noun == Pick(s.nouns, src2, adjective.1);
    var token := Token(Alphabet(s), s.tokenLength, src1, noun.1);
    if |Alphabet(s)| > 0 {
      assert Agree(src1, src2, noun.1, s.tokenLength) by {
        forall k | noun.1 <= k < noun.1 + s.tokenLength
          ensures src1(k) == src2(k)
        {
        }
      }
      CharsAgree(Alphabet(s), s.tokenLength, src1, src2, noun.1);
    }
    assert token == Token(Alphabet(s), s.tokenLength, src2, noun.1);
    SelectSteps(s, src1, pos, adjective, noun, token);
    SelectSteps(s, src2, pos, adjective, noun, token);
  }

  /**
    The stream abstraction loses no behaviour: for every configuration, any
    listed adjective, any listed noun and any choice of `tokenLength`
    alphabet positions, the generator that answers exactly the draws one call
    takes produces that adjective, that noun and the token spelled by those
    positions. Empty lists and an empty alphabet give "" and take no draw.
   */
  lemma {:induction false} EveryChoiceReachable(s: Settings, pos: nat, i: nat, j: nat, idx: seq<nat>)
    requires |s.adjectives| > 0 ==> i < |s.adjectives|
    requires |s.nouns| > 0 ==> j < |s.nouns|
    requires |Alphabet(s)| > 0 ==> |idx| == s.tokenLength && forall k :: 0 <= k < |idx| ==> idx[k] < |Alphabet(s)|
    ensures Select(s, Scripted(pos, Script(s, i, j, idx)), pos)
         == Segments(if |s.adjectives| > 0 then s.adjectives[i] else "",
                     if |s.nouns| > 0 then s.nouns[j] else "",
                     if |Alphabet(s)| > 0 then Spelled(Alphabet(s), idx) else "",
                     pos + Consumed(s))
  {
    var words := (if |s.adjectives| > 0 then [i] else []) + (if |s.nouns| > 0 then [j] else []);
    var script := Script(s, i, j, idx);
    var src := Scripted(pos, script);
    var a := if |s.adjectives| > 0 then 1 else 0;
    var start := pos + |words|;
    if |s.adjectives| > 0 {
      assert script[0] == i;
      ScriptedAt(pos, script, 0);
    }
    if |s.nouns| > 0 {
      assert script[a] == j;
      ScriptedAt(pos, script, a);
    }
    if |Alphabet(s)| > 0 {
      assert script == words + idx;
      forall k | start <= k < start + |idx|
        ensures src(k) == idx[k - start]
      {
        var m := k - start;
        assert script[|words| + m] == idx[m];
        ScriptedAt(pos, script, |words| + m);
      }
    }
    SelectAnswered(s, src, pos, i, j, idx);
  }

  /** Whatever the stream, draws that answer `i`, `j` and the positions `idx` give those segments. */
  lemma SelectAnswered(s: Settings, src: Stream, pos: nat, i: nat, j: nat, idx: seq<nat>)
    requires |s.adjectives| > 0 ==> i < |s.adjectives| && src(pos) == i
    requires |s.nouns| > 0 ==> j < |s.nouns| && src(pos + (if |s.adjectives| > 0 then 1 else 0)) == j
    requires var start := pos + (if |s.adjectives| > 0 then 1 else 0) + (if |s.nouns| > 0 then 1 else 0);
      |Alphabet(s)| > 0 ==>
        && |idx| == s.tokenLength
        && (forall k :: 0 <= k < |idx| ==> idx[k] < |Alphabet(s)|)
        && (forall k :: start <= k < start + |idx| ==> src(k) == idx[k - start])
    ensures Select(s, src, pos)
         == Segments(if |s.adjectives| > 0 then s.adjectives[i] else "",
                     if |s.nouns| > 0 then s.nouns[j] else "",
                     if |Alphabet(s)| > 0 then Spelled(Alphabet(s), idx) else "",
                     pos + Consumed(s))
  {
    var a := if |s.adjectives| > 0 then 1 else 0;
    var start := pos + a + (if |s.nouns| > 0 then 1 else 0);
    var adjective := (if |s.adjectives| > 0 then s.adjectives[i] else "", pos + a);
    if |s.adjectives| > 0 {
      PickAnswered(s.adjectives, src, pos, i);
    }
    var noun := (if |s.nouns| > 0 then s.nouns[j] else "", start);
    if |s.nouns| > 0 {
      PickAnswered(s.nouns, src, pos + a, j);
    }
    if |Alphabet(s)| > 0 {
      TokenAnswered(Alphabet(s), s.tokenLength, src, start, idx);
      SelectSteps(s, src, pos, adjective, noun, (Spelled(Alphabet(s), idx), start + |idx|));
    } else {
      SelectSteps(s, src, pos, adjective, noun, ("", start));
    }
  }

  /** A draw answering `w` picks the word at `w`. */
  lemma PickAnswered(words: seq<string>, src: Stream, pos: nat, w: nat)
    requires w < |words| && src(pos) == w
    ensures Pick(words, src, pos) == (words[w], pos + 1)
  {
    DrawBelow(src, pos, |words|);
  }

  /** Token draws answering the positions `idx` spell the token those positions name. */
  lemma TokenAnswered(alphabet: string, length: nat, src: Stream, pos: nat, idx: seq<nat>)
    requires |alphabet| > 0 && |idx| == length && forall k :: 0 <= k < |idx| ==> idx[k] < |alphabet|
    requires forall k :: pos <= k < pos + |idx| ==> src(k) == idx[k - pos]
    ensures Token(alphabet, length, src, pos) == (Spelled(alphabet, idx), pos + length)
  {
    CharsFollowIndices(alphabet, idx, src, pos);
  }

  /** The raw outputs one call reads: the adjective's, the noun's and the token's, each only if drawn. */
  function Script(s: Settings, i: nat, j: nat, idx: seq<nat>): seq<nat>
  {
    (if |s.adjectives| > 0 then [i] else [])
    + (if |s.nouns| > 0 then [j] else [])
    + (if |Alphabet(s)| > 0 then idx else [])
  }

  /** The characters of `alphabet` at the positions `idx`. */
  function Spelled(alphabet: string, idx: seq<nat>): (r: string)
    requires forall k :: 0 <= k < |idx| ==> idx[k] < |alphabet|
  {
    seq(|idx|, k requires 0 <= k < |idx| => alphabet[idx[k]])
  }

  /** Draws that answer the positions `idx` produce the token those positions spell. */
  lemma CharsFollowIndices(alphabet: string, idx: seq<nat>, src: Stream, pos: nat)
    requires |alphabet| > 0 && forall k :: 0 <= k < |idx| ==> idx[k] < |alphabet|
    requires forall k :: pos <= k < pos + |idx| ==> src(k) == idx[k - pos]
    ensures Chars(alphabet, |idx|, src, pos) == Spelled(alphabet, idx)
  {
    var chars := Chars(alphabet, |idx|, src, pos);
    forall k | 0 <= k < |idx|
      ensures chars[k] == Spelled(alphabet, idx)[k]
    {
      assert src(pos + k) == idx[k];
      DrawBelow(src, pos + k, |alphabet|);
    }
  }

  /** A stream whose outputs from `pos` on are `script`, and 0 after it. */
  function Scripted(pos: nat, script: seq<nat>): Stream
  {
    k => if pos <= k < pos + |script| then script[k - pos] else 0
  }

  lemma ScriptedAt(pos: nat, script: seq<nat>, k: nat)
    requires k < |script|
    ensures Scripted(pos, script)(pos + k) == script[k]
  {
  }

  /** A raw output already below the bound is answered unchanged. */
  lemma DrawBelow(src: Stream, k: nat, n: nat)
    requires src(k) < n
    ensures Draw(src, k, n) == src(k)
  {
  }

  /**
    Read back at a one-character delimiter that no word and no alphabet
    character contains, a name falls apart into exactly its non-empty
    segments, in order: no leading, trailing or doubled delimiter comes from
    an omitted segment.
   */
  lemma {:induction false} NameSplitsIntoSegments(s: Settings, src: Stream, pos: nat, d: char)
    requires s.delimiter == [d]
    requires forall k :: 0 <= k < |s.adjectives| ==> d !in s.adjectives[k]
    requires forall k :: 0 <= k < |s.nouns| ==> d !in s.nouns[k]
    requires d !in Alphabet(s)
    ensures var g := Select(s, src, pos);
      var parts := NonEmpty([g.adjective, g.noun, g.token]);
      && (parts == [] ==> Name(s, src, pos) == "")
      && (parts != [] ==> Split(Name(s, src, pos), d) == parts)
  {
    var g := Select(s, src, pos);
    var parts := NonEmpty([g.adjective, g.noun, g.token]);
    assert d !in g.adjective && d !in g.noun;
    assert d !in g.token by {
      forall k | 0 <= k < |g.token|
        ensures g.token[k] != d
      {
      }
    }
    if parts != [] {
      forall k | 0 <= k < |parts|
        ensures d !in parts[k]
      {
        assert parts[k] in [g.adjective, g.noun, g.token];
      }
      SplitJoin(parts, d);
    }
  }

  /** With no words and no token to draw, the name is empty. */
  lemma EmptyConfigurationEmptyName(s: Settings, src: Stream, pos: nat)
    requires s.adjectives == [] && s.nouns == [] && s.tokenLength == 0
    ensures Name(s, src, pos) == "" && Consumed(s) == 0
  {
    EmptyNameIffNoSegments(s, src, pos);
  }

  /**
    With two word lists of non-empty words, a non-empty alphabet and a
    positive token length, a name reads back as exactly three segments:
    a listed adjective, a listed noun and the token.
   */
  lemma {:induction false} FullNameShape(s: Settings, src: Stream, pos: nat, d: char)
    requires s.delimiter == [d]
    requires DefaultWords.WordList(s.adjectives, d) && DefaultWords.WordList(s.nouns, d)
    requires |Alphabet(s)| > 0 && d !in Alphabet(s) && s.tokenLength > 0
    ensures var g := Select(s, src, pos);
      && g.adjective in s.adjectives && g.noun in s.nouns && |g.token| == s.tokenLength
      && Split(Name(s, src, pos), d) == [g.adjective, g.noun, g.token]
  {
    var g := Select(s, src, pos);
    var segments := [g.adjective, g.noun, g.token];
    NameSplitsIntoSegments(s, src, pos, d);
    assert g.adjective != "" by {
      var k :| 0 <= k < |s.adjectives| && s.adjectives[k] == g.adjective;
    }
    assert g.noun != "" by {
      var k :| 0 <= k < |s.nouns| && s.nouns[k] == g.noun;
    }
    assert g.token != "";
    NonEmptyKeepsAll(segments);
  }

  /**
    With the default configuration a name is an adjective of the built-in
    list, `-`, a noun of the built-in list, `-`, and four decimal digits.
   */
  lemma DefaultNameShape(rng: Rng, src: Stream, pos: nat)
    ensures var g := Select(DefaultParams(rng).Config(), src, pos);
      && g.adjective in DefaultWords.Adjectives
      && g.noun in DefaultWords.Nouns
      && |g.token| == 4
      && (forall k :: 0 <= k < 4 ==> '0' <= g.token[k] <= '9')
      && Split(Name(DefaultParams(rng).Config(), src, pos), '-') == [g.adjective, g.noun, g.token]
  {
    var s := DefaultParams(rng).Config();
    var g := Select(s, src, pos);
    assert s == Settings(DefaultWords.Adjectives, DefaultWords.Nouns, "-", 4, false, "0123456789");
    assert Alphabet(s) == "0123456789" && '-' !in Alphabet(s);
    DefaultWords.DefaultListsAreWordLists();
    FullNameShape(s, src, pos, '-');
    forall k | 0 <= k < 4
      ensures '0' <= g.token[k] <= '9'
    {
      DecimalDigit(g.token[k]);
    }
  }

  lemma DecimalDigit(c: char)
    requires c in "0123456789"
    ensures '0' <= c <= '9'
  {
  }

  /** A name generator: its public configuration and the generator it owns. */
  class Haikunator {
    const rng: Rng
    var adjectives: seq<string>
    var nouns: seq<string>
    var delimiter: string
    var tokenLength: nat
    var tokenHex: bool
    var tokenChars: string

    /** The configuration as a value. */
    function Config(): Settings
      reads this
    {
      Settings(adjectives, nouns, delimiter, tokenLength, tokenHex, tokenChars)
    }

    /** Takes every parameter over unchanged. */
    constructor (params: Params)
      ensures rng == params.rng
      ensures adjectives == params.adjectives && nouns == params.nouns
      ensures delimiter == params.delimiter && tokenLength == params.tokenLength
      ensures tokenHex == params.tokenHex && tokenChars == params.tokenChars
    {
      rng := params.rng;
      adjectives := params.adjectives;
      nouns := params.nouns;
      delimiter := params.delimiter;
      tokenLength := params.tokenLength;
      tokenHex := params.tokenHex;
      tokenChars := params.tokenChars;
    }

    /** A generator with the default configuration around `rng`. */
    constructor Default(rng: Rng)
      ensures this.rng == rng
      ensures Config() == DefaultParams(rng).Config()
    {
      var params := DefaultParams(rng);
      this.rng := params.rng;
      adjectives := params.adjectives;
      nouns := params.nouns;
      delimiter := params.delimiter;
      tokenLength := params.tokenLength;
      tokenHex := params.tokenHex;
      tokenChars := params.tokenChars;
    }

    /** The token loop: `tokenLength` characters of a non-empty alphabet, one draw each. */
    method DrawToken(tokens: string) returns (token: string)
      requires |tokens| > 0
      modifies rng
      ensures (token, rng.drawn) == Token(tokens, tokenLength, rng.outputs, old(rng.drawn))
    {
      ghost var start := rng.drawn;
      token := "";
      for k := 0 to tokenLength
        invariant rng.drawn == start + k
        invariant token == Chars(tokens, k, rng.outputs, start)
      {
        var index := rng.GenRange(|tokens|);
        token := token + [tokens[index]];
      }
    }

    /** One name: exactly `Name` of the configuration at the generator's state, which advances by `Consumed` draws. */
    method Haikunate() returns (name: string)
      modifies rng
      ensures name == Name(Config(), rng.outputs, old(rng.drawn))
      ensures rng.drawn == old(rng.drawn) + Consumed(Config())
    {
      ghost var s, src, start := Config(), rng.outputs, rng.drawn;
      var tokens := if tokenHex then HexDigits else tokenChars;
      assert tokens == Alphabet(s);

      var adjective := "";
      if |adjectives| > 0 {
        var i := rng.GenRange(|adjectives|);
        adjective := adjectives[i];
      }
      ghost var picked := (adjective, rng.drawn);
      assert picked == Pick(s.adjectives, src, start);

      var noun := "";
      if |nouns| > 0 {
        var i := rng.GenRange(|nouns|);
        noun := nouns[i];
      }
      ghost var pickedNoun := (noun, rng.drawn);
      assert pickedNoun == Pick(s.nouns, src, picked.1);

      assert tokenLength == s.tokenLength && rng.outputs == src && rng.drawn == pickedNoun.1;
      var token := "";
      var count := |tokens|;
      if count > 0 {
        token := DrawToken(tokens);
      }
      ghost var drawnToken := (token, rng.drawn);
      assert drawnToken == Token(Alphabet(s), s.tokenLength, src, pickedNoun.1);
      SelectSteps(s, src, start, picked, pickedNoun, drawnToken);

      var parts := [adjective, noun, token];
      parts := NonEmpty(parts);
      name := Join(parts, delimiter);
    }
  }

  /** The draw number at which call k of a run starts: `Consumed` draws per earlier call. */
  function Start(s: Settings, k: nat): nat
  {
    if k == 0 then 0 else Start(s, k - 1) + Consumed(s)
  }

  /** Call k starts after exactly k calls' worth of draws. */
  lemma {:induction false} StartAfterCalls(s: Settings, k: nat)
    ensures Start(s, k) == k * Consumed(s)
  {
    if k > 0 {
      StartAfterCalls(s, k - 1);
      assert k * Consumed(s) == (k - 1) * Consumed(s) + Consumed(s);
    }
  }

  /** The first `count` values of `f`, in order. */
  ghost function Prefix(f: nat -> string, count: nat): seq<string>
  {
    seq(count, (k: nat) => f(k))
  }

  /** One more value appends `f(count)`. */
  lemma PrefixNext(f: nat -> string, count: nat)
    ensures Prefix(f, count + 1) == Prefix(f, count) + [f(count)]
  {
    var longer, shorter := Prefix(f, count + 1), Prefix(f, count);
    assert forall i | 0 <= i < count :: longer[i] == shorter[i];
  }

  /** The name returned by call k of a run that starts at draw number 0. */
  ghost function CallName(s: Settings, outputs: Stream): nat -> string
  {
    (k: nat) => Name(s, outputs, Start(s, k))
  }

  /** The names of the first `count` calls of a run that starts at draw number 0. */
  ghost function Runs(s: Settings, outputs: Stream, count: nat): seq<string>
  {
    Prefix(CallName(s, outputs), count)
  }

  /** One more call appends the name drawn where the previous calls stopped. */
  lemma RunsNext(s: Settings, outputs: Stream, count: nat)
    ensures Runs(s, outputs, count + 1) == Runs(s, outputs, count) + [Name(s, outputs, Start(s, count))]
  {
    PrefixNext(CallName(s, outputs), count);
  }

  /** Call k of a run: appends its name to those of the previous calls. */
  method NextCall(h: Haikunator, ghost k: nat, names: seq<string>) returns (more: seq<string>)
    requires h.rng.drawn == Start(h.Config(), k)
    requires names == Runs(h.Config(), h.rng.outputs, k)
    modifies h.rng
    ensures h.rng.drawn == Start(h.Config(), k + 1)
    ensures more == Runs(h.Config(), h.rng.outputs, k + 1)
  {
    var name := h.Haikunate();
    RunsNext(h.Config(), h.rng.outputs, k);
    more := names + [name];
  }

  /** `calls` consecutive calls on a generator that has taken no draw yet give the names of `Runs`. */
  method Calls(h: Haikunator, calls: nat) returns (names: seq<string>)
    requires h.rng.drawn == 0
    modifies h.rng
    ensures names == Runs(h.Config(), h.rng.outputs, calls)
  {
    names := [];
    for k := 0 to calls
      invariant h.rng.drawn == Start(h.Config(), k)
      invariant names == Runs(h.Config(), h.rng.outputs, k)
    {
      names := NextCall(h, k, names);
    }
  }

  /**
    A seeded generator called `calls` times: the names are those of `Runs`,
    so they are fixed by the configuration and the raw stream.
   */
  method SeededNames(outputs: Stream, s: Settings, calls: nat) returns (names: seq<string>)
    ensures names == Runs(s, outputs, calls)
  {
    var rng := new Rng(outputs);
    var h := new Haikunator(Params(rng, s.adjectives, s.nouns, s.delimiter, s.tokenLength, s.tokenHex, s.tokenChars));
    names := Calls(h, calls);
  }

  /**
    Two generators built from the same parameters over the same raw stream
    give the same names, call after call; call k returns the name drawn at
    draw number k * `Consumed`.
   */
  method SeededRunsAgree(outputs: Stream, s: Settings, calls: nat) returns (first: seq<string>, second: seq<string>)
    ensures |first| == calls && first == second
    ensures forall k :: 0 <= k < calls ==> first[k] == Name(s, outputs, k * Consumed(s))
  {
    first := SeededNames(outputs, s, calls);
    second := SeededNames(outputs, s, calls);
    forall k | 0 <= k < calls
      ensures first[k] == Name(s, outputs, k * Consumed(s))
    {
      assert first[k] == CallName(s, outputs)(k) == Name(s, outputs, Start(s, k));
      StartAfterCalls(s, k);
    }
  }
}
