# haikunator, modelled in Dafny

This project models a Heroku-style name generator, the `haikunator` crate.
A `Haikunator` holds word lists, a delimiter, a token shape and a random
generator. Each call to `haikunate` builds a name from three segments:

- an adjective drawn from `adjectives` (empty when the list is empty);
- a noun drawn from `nouns` (the same rule);
- a token of `token_length` characters, each drawn by position from the
  alphabet. The alphabet is the sixteen lowercase hex digits when `token_hex`
  is set, and `token_chars` otherwise. The token is empty when the alphabet
  is empty.

The empty segments are dropped and the rest are joined with the delimiter
(`flying-bat-4821`).

Files:

- `random.dfy` (module `Random`): the random generator as a class `Rng`.
  Its raw outputs are an arbitrary stream `nat -> nat`, and a counter records
  how many draws were taken. `GenRange(n)` must be called with `n > 0`. It
  answers the next raw output reduced into `[0, n)` and advances the counter
  by one.
- `parts.dfy` (module `Parts`): the string operations used to assemble a
  name. `NonEmpty` models `Vec::retain` with `!s.is_empty()`, and `Join`
  models `[&str]::join`. `Split` models `str::split` at one character, which
  the crate's tests use to read a name back; `SplitJoin` proves that
  splitting undoes joining, and `JoinSplit` that joining undoes splitting.
- `default_words.dfy` (module `DefaultWords`): stand-in word lists for the
  default configuration.
- `haikunator.dfy` (module `Names`): the configuration (`Settings`,
  `Params`), the default parameters, and the specification. `Select` gives
  the three segments and the next draw number. `Name` gives the name that one
  call produces, as a function of the configuration, the raw stream and the
  draw counter. The class `Haikunator` has the crate's fields and its method
  `Haikunate` keeps the source's steps (alphabet choice, two guarded draws,
  the guarded token loop, retain, join). The token loop is the method
  `DrawToken`. `Haikunate` is proved to return `Name` and to take exactly
  `Consumed` draws. `Runs` lists the names of consecutive calls on one
  generator, and `Calls` and `SeededNames` are proved to return that list.

Dafny's `char` is a Unicode scalar value, so `alphabet[i]` and
`|alphabet|` count code points, as `chars().nth(i)` and `chars().count()` do
in the source.

## Model

| member | source | states |
|---|---|---|
| `Random.Rng.constructor` | tests/lib.rs:148 | a freshly seeded generator has taken no draw yet and reads the given raw outputs |
| `Random.Rng.GenRange` | src/lib.rs:114 | a draw is only requested with a positive bound; its answer is below that bound; the generator's state advances by exactly one draw |
| `Random.Draw` | src/lib.rs:98 | the draw numbered k with bound n is an index in `[0, n)` |
| `Parts.NonEmpty` | src/lib.rs:120 | `retain(!is_empty)` keeps no empty part, keeps every non-empty part, and keeps nothing that was not in the list |
| `Parts.NonEmptyAppend` | src/lib.rs:120 | retaining distributes over concatenation, so the kept parts stay in their original order |
| `Parts.NonEmptyKeepsFirst` | src/lib.rs:120 | a non-empty first part is still first after retaining |
| `Parts.NonEmptyKeepsLast` | src/lib.rs:120 | a non-empty last part is still last after retaining |
| `Parts.NonEmptyKeepsAll` | src/lib.rs:120 | a list without empty parts is kept whole |
| `Parts.Join` | src/lib.rs:121 | joining no parts gives ""; a join starts with its first part and ends with its last part |
| `Parts.Split` | tests/lib.rs:66 | `str::split` at one character always gives at least one piece |
| `Parts.JoinSplit` | tests/lib.rs:168 | joining the pieces of a split with the same character gives back the string that was split |
| `Parts.SplitJoin` | src/lib.rs:121 | splitting a join at a one-character delimiter that no part contains gives back exactly the parts |
| `Names.DefaultParams` | src/lib.rs:50-61 | the default parameters use the given generator, delimiter "-", `token_length` 4, `token_hex` false and alphabet "0123456789"; both default word lists are non-empty lists of non-empty words without "-" |
| `Names.Alphabet` | src/lib.rs:90-94 | with `token_hex` the alphabet is exactly the sixteen lowercase hex digits, whatever `token_chars` holds; without it the alphabet is `token_chars` itself; it is empty exactly when `token_hex` is false and `token_chars` is "" |
| `Names.TokenCharsIgnoredWhenHex` | src/lib.rs:27 | with `token_hex` set, `token_chars` is ignored: the alphabet is the sixteen hex digits, and replacing `token_chars` by any string changes neither the segments nor the name of a call |
| `Names.Pick` | src/lib.rs:97-107 | a non-empty list yields one of its members and takes one draw; an empty list yields "" and takes no draw |
| `Names.Chars` | src/lib.rs:113-116 | the token has exactly n characters, and character i is the alphabet's character at the position answered by draw pos + i (code-point indexing) |
| `Names.Token` | src/lib.rs:109-117 | a non-empty alphabet gives a token of exactly `token_length` characters and takes that many draws; an empty alphabet gives "" and takes no draw |
| `Names.Select` | src/lib.rs:89-117 | one call takes exactly `Consumed` draws: one per non-empty word list, plus `token_length` when the alphabet is non-empty |
| `Names.SelectSegments` | src/lib.rs:90-117 | the adjective is a member of `adjectives` when that list is non-empty and "" otherwise, and the same holds for the noun; with `token_hex` the token has `token_length` hex digits, whatever `token_chars` holds; otherwise it has `token_length` characters of `token_chars`, or is "" when `token_chars` is empty |
| `Names.Assemble` | src/lib.rs:119-121 | after retaining and joining, a non-empty adjective begins the name and a non-empty token ends it |
| `Names.Name` | src/lib.rs:89-121 | the name one call returns begins with the drawn adjective and ends with the drawn token whenever these are non-empty |
| `Names.EmptyNameIffNoSegments` | src/lib.rs:119-121 | the name is "" exactly when the adjective, the noun and the token are all "" |
| `Names.DrawOrder` | src/lib.rs:96-117 | draws are taken in a fixed order: the adjective's (if any), then the noun's (if any), then one per token character |
| `Names.SameDrawsSameSegments` | src/lib.rs:96-117 | two generators whose `Consumed` draws from the same draw number answer alike produce the same adjective, noun and token, and stop at the same draw number |
| `Names.SameDrawsSameName` | src/lib.rs:96-121 | the segments and the name depend only on the configuration and the `Consumed` draws taken, so identical generators give identical names |
| `Names.PickAnswered` | src/lib.rs:97-98 | a draw that answers w picks the word at position w |
| `Names.TokenAnswered` | src/lib.rs:112-117 | token draws that answer given alphabet positions give the token spelled by those positions, of `token_length` characters |
| `Names.CharsFollowIndices` | src/lib.rs:113-116 | token draws that answer given alphabet positions produce the characters at those positions, in order |
| `Names.SelectAnswered` | src/lib.rs:96-117 | for any generator, draws that answer an adjective position, a noun position and token positions give exactly those segments, each only where the list or alphabet is non-empty, and end after `Consumed` draws |
| `Names.EveryChoiceReachable` | src/lib.rs:97-116 | for every configuration, including empty word lists and an empty alphabet, any listed adjective, any listed noun and any `token_length` alphabet positions are produced by the generator whose draws answer exactly those choices; empty lists and an empty alphabet give "" and take no draw |
| `Names.NameSplitsIntoSegments` | src/lib.rs:119-121 | when no word and no alphabet character contains the delimiter character, splitting the name gives exactly the non-empty segments in order; if all segments are empty, the name is "". No leading, trailing or doubled delimiter comes from an omitted segment |
| `Names.FullNameShape` | src/lib.rs:89-121 | with non-empty lists of non-empty words, a non-empty alphabet and a positive token length, the name splits into exactly three parts: a listed adjective, a listed noun and a token of `token_length` characters |
| `Names.EmptyConfigurationEmptyName` | src/lib.rs:97-121 | with no adjectives, no nouns and `token_length` 0, the name is "" and no draw is taken |
| `Names.DefaultNameShape` | src/lib.rs:50-61 | with the default parameters (delimiter "-", `token_length` 4, `token_hex` false, alphabet "0123456789"), the name is a built-in adjective, "-", a built-in noun, "-", and four decimal digits |
| `Names.Haikunator.constructor` | src/lib.rs:66-76 | `new` takes the generator and every parameter over unchanged |
| `Names.Haikunator.Default` | src/lib.rs:135-137 | `Haikunator::default()` is `new` applied to the default parameters |
| `Names.Haikunator.DrawToken` | src/lib.rs:112-117 | for a non-empty alphabet, the loop builds the token `Token` specifies and advances the generator by `token_length` draws |
| `Names.Haikunator.Haikunate` | src/lib.rs:89-122 | the method returns `Name` of its configuration at the generator's current state; the generator advances by exactly `Consumed` draws; the configuration is unchanged |
| `Names.StartAfterCalls` | src/lib.rs:96-117 | every call takes the same `Consumed` draws, so call k of a generator that starts with no draw begins at draw number k * `Consumed` |
| `Names.RunsNext` | src/lib.rs:89-122 | the names of k + 1 calls are the names of the first k calls followed by the name drawn where they stopped |
| `Names.NextCall` | src/lib.rs:89-122 | one more `haikunate` call on the same generator appends the name `Runs` predicts for that call and leaves the generator at the start of the next call |
| `Names.Calls` | tests/lib.rs:160-162 | repeated `haikunate` calls on one generator that has taken no draw return exactly the names of `Runs`: call k gives `Name` at the draw number where call k - 1 stopped |
| `Names.SeededNames` | tests/lib.rs:146-162 | a generator built by `new` over a fresh seeded stream returns, call after call, the names of `Runs` for its parameters and that stream |
| `Names.SeededRunsAgree` | tests/lib.rs:146-162 | two generators built from the same parameters over the same raw stream return the same list of names, for any number of calls; call k returns `Name` of the configuration at draw number k * `Consumed` |

## Left out

- The random generators (`ThreadRng`, `SmallRng`) are not modelled. They are replaced by an arbitrary raw stream: each draw is the next raw output reduced modulo the bound. `EveryChoiceReachable` shows that this loses no outcome of a single call: for every configuration, each combination of listed words and token positions is produced by some stream. Uniformity and "two calls give different names" are probabilistic claims and are not stated.
- `Random.Rng.GenRange`: reduces a raw output modulo the bound rather than sampling uniformly as `rand` does. Only the bound and the consumption of one draw are claimed about the real generator.
- The `RefCell` around the generator is not modelled. It is Rust's interior mutability; here the generator is an object the class owns, and `Haikunate` declares that it modifies it.
- The contents of the default adjective and noun lists are not modelled. They are static data in `default_adjectives` / `default_nouns`, which are not part of this model. `DefaultWords` holds a short stand-in excerpt. Every property of the default configuration is proved for any lists of non-empty words without `-` (`FullNameShape`).
- The tests' regular expressions (`\w+`) are not modelled. Their structure is stated instead: `Split` gives the parts, and the lemmas say which list each part comes from and what the token is made of. Whether words consist of word characters depends on the lists' data.
- `String::with_capacity` is left out; it is only an allocation hint. A failed allocation for a huge `token_length` is also left out. `token_length` is a `nat`, so the `usize` width plays no role in any branch.
- `SplitJoin` covers one-character delimiters, as every delimiter in the crate's tests is. For longer delimiters, `Join` still proves that a name starts with its first kept segment and ends with its last.
- Lifetimes, `'static` bounds and the derived `Debug` are not modelled, since they have no runtime behaviour.
