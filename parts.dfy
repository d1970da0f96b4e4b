/**
  The string operations a generated name is assembled with: dropping the
  empty parts of a list (`Vec::retain` with `!s.is_empty()`), joining parts
  with a delimiter (`[&str]::join`), and splitting a string at a delimiter
  character (`str::split`), which is how a name is read back into its parts.
 */
module Parts {

  /** The non-empty members of `parts`, in their original order. */
  function NonEmpty(parts: seq<string>): (r: seq<string>)
    ensures |r| <= |parts|
    ensures forall i :: 0 <= i < |r| ==> r[i] != ""
    ensures forall x :: x in r <==> x in parts && x != ""
  {
    if parts == [] then []
    else if parts[0] == "" then NonEmpty(parts[1..])
    else [parts[0]] + NonEmpty(parts[1..])
  }

  /** Filtering distributes over concatenation, so relative order is kept. */
  lemma {:induction false} NonEmptyAppend(a: seq<string>, b: seq<string>)
    ensures NonEmpty(a + b) == NonEmpty(a) + NonEmpty(b)
  {
    if a != [] {
      assert (a + b)[0] == a[0];
      assert (a + b)[1..] == a[1..] + b;
      NonEmptyAppend(a[1..], b);
    } else {
      assert a + b == b;
    }
  }

  /** A non-empty first member stays first. */
  lemma NonEmptyKeepsFirst(parts: seq<string>)
    requires |parts| > 0
    ensures parts[0] != "" ==> |NonEmpty(parts)| > 0 && NonEmpty(parts)[0] == parts[0]
  {
  }

  /** A non-empty last member stays last. */
  lemma {:induction false} NonEmptyKeepsLast(parts: seq<string>)
    requires |parts| > 0
    ensures var r := NonEmpty(parts);
      parts[|parts| - 1] != "" ==> |r| > 0 && r[|r| - 1] == parts[|parts| - 1]
  {
    var last := parts[|parts| - 1];
    if last != "" {
      assert parts == parts[..|parts| - 1] + [last];
      NonEmptyAppend(parts[..|parts| - 1], [last]);
      assert NonEmpty([last]) == [last] + NonEmpty([]);
    }
  }

  /** A list with no empty member is kept whole. */
  lemma {:induction false} NonEmptyKeepsAll(parts: seq<string>)
    requires forall i :: 0 <= i < |parts| ==> parts[i] != ""
    ensures NonEmpty(parts) == parts
  {
    if parts != [] {
      NonEmptyKeepsAll(parts[1..]);
      assert parts == [parts[0]] + parts[1..];
    }
  }

  /**
    `parts` joined with `sep` between consecutive parts. The result starts
    with the first part and ends with the last, so it has no leading or
    trailing delimiter of its own.
   */
  function Join(parts: seq<string>, sep: string): (r: string)
    ensures |parts| == 0 ==> r == ""
    ensures |parts| > 0 ==> parts[0] <= r
    ensures |parts| > 0 ==> |parts[|parts| - 1]| <= |r| && r[|r| - |parts[|parts| - 1]|..] == parts[|parts| - 1]
  {
    if |parts| == 0 then ""
    else if |parts| == 1 then parts[0]
    else parts[0] + sep + Join(parts[1..], sep)
  }

  /** `s` cut at every occurrence of `d`; like `str::split`, the empty string gives `[""]`. */
  function Split(s: string, d: char): (r: seq<string>)
    ensures |r| >= 1
  {
    if s == [] then [""]
    else
      var rest := Split(s[1..], d);
      if s[0] == d then [""] + rest
      else [[s[0]] + rest[0]] + rest[1..]
  }

  /** Joining the pieces of a split with the same character gives the string back. */
  lemma {:induction false} JoinSplit(s: string, d: char)
    ensures Join(Split(s, d), [d]) == s
  {
    if s != [] {
      var c, t := s[0], s[1..];
      assert s == [c] + t;
      JoinSplit(t, d);
      if c == d {
        JoinSplitAtDelimiter(t, d);
      } else {
        JoinSplitInWord(c, t, d);
      }
    }
  }

  /** A leading delimiter becomes an empty first piece, and the join puts it back. */
  lemma JoinSplitAtDelimiter(t: string, d: char)
    ensures Join(Split([d] + t, d), [d]) == [d] + Join(Split(t, d), [d])
  {
    var rest := Split(t, d);
    var s := [d] + t;
    assert s != [] && s[0] == d && s[1..] == t;
    assert Split(s, d) == [""] + rest;
    JoinFront("", rest, [d]);
    assert "" + [d] + Join(rest, [d]) == [d] + Join(rest, [d]);
  }

  /** A leading word character is glued onto the first piece, and the join puts it back. */
  lemma JoinSplitInWord(c: char, t: string, d: char)
    requires c != d
    ensures Join(Split([c] + t, d), [d]) == [c] + Join(Split(t, d), [d])
  {
    var rest := Split(t, d);
    assert ([c] + t)[1..] == t;
    assert Split([c] + t, d) == [[c] + rest[0]] + rest[1..];
    JoinGlue(c, rest, [d]);
  }

  /** A part put in front of a non-empty list is followed by one separator. */
  lemma JoinFront(x: string, rest: seq<string>, sep: string)
    requires |rest| >= 1
    ensures Join([x] + rest, sep) == x + sep + Join(rest, sep)
  {
    assert ([x] + rest)[1..] == rest;
  }

  /** A character glued onto the first part lands in front of the join. */
  lemma JoinGlue(c: char, parts: seq<string>, sep: string)
    requires |parts| >= 1
    ensures Join([[c] + parts[0]] + parts[1..], sep) == [c] + Join(parts, sep)
  {
    var glued := [[c] + parts[0]] + parts[1..];
    if |parts| > 1 {
      assert glued[1..] == parts[1..];
      var tail := Join(parts[1..], sep);
      assert Join(glued, sep) == [c] + parts[0] + sep + tail;
      assert Join(parts, sep) == parts[0] + sep + tail;
      assert [c] + parts[0] + sep + tail == [c] + (parts[0] + sep + tail);
    }
  }

  /** A prefix free of `d` is glued onto the first piece of what follows it. */
  lemma {:induction false} SplitPrefix(w: string, t: string, d: char)
    requires d !in w
    ensures Split(w + t, d) == [w + Split(t, d)[0]] + Split(t, d)[1..]
  {
    if w != [] {
      assert (w + t)[0] == w[0];
      assert (w + t)[1..] == w[1..] + t;
      SplitPrefix(w[1..], t, d);
      assert [w[0]] + (w[1..] + Split(t, d)[0]) == w + Split(t, d)[0];
    } else {
      var r := Split(t, d);
      assert w + t == t && w + r[0] == r[0];
      assert r == [r[0]] + r[1..];
    }
  }

  /**
    Splitting a joined list at a one-character delimiter gives the list back,
    provided no part contains the delimiter: no piece is lost, none is added.
   */
  lemma {:induction false} SplitJoin(parts: seq<string>, d: char)
    requires |parts| >= 1
    requires forall i :: 0 <= i < |parts| ==> d !in parts[i]
    ensures Split(Join(parts, [d]), d) == parts
  {
    if |parts| == 1 {
      SplitPrefix(parts[0], "", d);
      assert parts[0] + "" == parts[0];
      assert parts == [parts[0]];
    } else {
      var tail := Join(parts[1..], [d]);
      SplitJoin(parts[1..], d);
      assert parts[0] + [d] + tail == parts[0] + ([d] + tail);
      SplitPrefix(parts[0], [d] + tail, d);
      assert ([d] + tail)[0] == d && ([d] + tail)[1..] == tail;
      assert Split([d] + tail, d) == [""] + parts[1..];
      assert parts[0] + "" == parts[0];
      assert parts == [parts[0]] + parts[1..];
    }
  }
}
