/** The string operations the captioner borrows from Python: `str.strip()`,
    `sep.join(parts)` and `str.endswith(chars)`. The captioner never splits a
    string; `Split` (Python's `str.split(sep)`) is this model's own tool. It
    defines `Words`, the space-separated words of a string, and it reads the
    written caption text back in the WebVTT parser. */
module Text {

  /** Python's `str.isspace()` for one character. */
  predicate IsSpace(c: char)
  {
    || c == ' ' || c == '\t' || c == '\n' || c == '\r'
    || c == '\U{B}' || c == '\U{C}'
    || ('\U{1C}' <= c <= '\U{1F}')
    || c == '\U{85}' || c == '\U{A0}' || c == '\U{1680}'
    || ('\U{2000}' <= c <= '\U{200A}')
    || c == '\U{2028}' || c == '\U{2029}' || c == '\U{202F}' || c == '\U{205F}' || c == '\U{3000}'
  }

  /** Drops the leading whitespace of `s`. */
  function TrimLeft(s: string): (r: string)
    ensures |r| <= |s|
    ensures |r| > 0 ==> !IsSpace(r[0])
    decreases |s|
  {
    if |s| > 0 && IsSpace(s[0]) then TrimLeft(s[1..]) else s
  }

  /** `TrimLeft` keeps a suffix and drops only whitespace before it. */
  lemma {:induction false} TrimLeftSuffix(s: string)
    ensures TrimLeft(s) == s[|s| - |TrimLeft(s)|..]
    ensures forall i :: 0 <= i < |s| - |TrimLeft(s)| ==> IsSpace(s[i])
    decreases |s|
  {
    if |s| > 0 && IsSpace(s[0]) {
      TrimLeftSuffix(s[1..]);
      forall i | 0 < i < |s| - |TrimLeft(s)| ensures IsSpace(s[i]) {
        assert s[i] == s[1..][i - 1];
      }
    }
  }

  /** Drops the trailing whitespace of `s`. */
  function TrimRight(s: string): (r: string)
    ensures |r| <= |s|
    ensures |r| > 0 ==> !IsSpace(r[|r| - 1])
    decreases |s|
  {
    if |s| > 0 && IsSpace(s[|s| - 1]) then TrimRight(s[..|s| - 1]) else s
  }

  /** `TrimRight` keeps a prefix and drops only whitespace after it. */
  lemma {:induction false} TrimRightPrefix(s: string)
    ensures TrimRight(s) == s[..|TrimRight(s)|]
    ensures forall i :: |TrimRight(s)| <= i < |s| ==> IsSpace(s[i])
    decreases |s|
  {
    if |s| > 0 && IsSpace(s[|s| - 1]) {
      TrimRightPrefix(s[..|s| - 1]);
    }
  }

  /** Python's `s.strip()`: the result neither starts nor ends with
      whitespace. */
  function Strip(s: string): (r: string)
    ensures |r| <= |s|
    ensures |r| > 0 ==> !IsSpace(r[0]) && !IsSpace(r[|r| - 1])
  {
    TrimRightPrefix(TrimLeft(s));
    TrimRight(TrimLeft(s))
  }

  /** `strip` removes whitespace only, and only from the two ends: the result
      is the slice of `s` between a run of leading and a run of trailing
      whitespace. */
  lemma StripSlice(s: string)
    ensures var a, r := |s| - |TrimLeft(s)|, Strip(s);
      && a + |r| <= |s| && r == s[a..a + |r|]
      && (forall i :: 0 <= i < a ==> IsSpace(s[i]))
      && (forall i :: a + |r| <= i < |s| ==> IsSpace(s[i]))
  {
    var t, r := TrimLeft(s), Strip(s);
    var a := |s| - |t|;
    TrimLeftSuffix(s);
    TrimRightPrefix(t);
    assert r == s[a..a + |r|] by {
      assert t == s[a..] && r == t[..|r|];
    }
    forall i | a + |r| <= i < |s| ensures IsSpace(s[i]) {
      assert s[i] == t[i - a];
    }
  }

  /** Stripping twice is stripping once. */
  lemma StripIdempotent(s: string)
    ensures Strip(Strip(s)) == Strip(s)
  {
    var r := Strip(s);
    assert TrimLeft(r) == r;
    assert TrimRight(r) == r;
  }

  /** Python's `s.endswith(tuple(ends))` for single-character suffixes. */
  predicate EndsWithAny(s: string, ends: set<char>)
  {
    |s| > 0 && s[|s| - 1] in ends
  }

  /** Concatenation regroups freely. */
  lemma ConcatAssoc<T>(x: seq<T>, y: seq<T>, z: seq<T>)
    ensures x + (y + z) == (x + y) + z
  {
  }

  function Concat(xs: seq<string>): string
  {
    if xs == [] then "" else xs[0] + Concat(xs[1..])
  }

  lemma {:induction false} ConcatSnoc(xs: seq<string>, x: string)
    ensures Concat(xs + [x]) == Concat(xs) + x
    decreases |xs|
  {
    if xs == [] {
      assert [x][1..] == [];
      assert x + "" == x;
    } else {
      assert (xs + [x])[1..] == xs[1..] + [x];
      assert (xs + [x])[0] == xs[0];
      ConcatSnoc(xs[1..], x);
      ConcatAssoc(xs[0], Concat(xs[1..]), x);
    }
  }

  /** The head and the tail of a sequence with a known first element. */
  lemma ConsParts<T>(x: T, ys: seq<T>)
    ensures ([x] + ys)[0] == x && ([x] + ys)[1..] == ys
  {
  }

  /** The three parts of a sequence built from three parts. */
  lemma ThreeParts<T>(x: seq<T>, y: seq<T>, z: seq<T>)
    ensures var s := x + y + z;
      s[..|x|] == x && s[|x|..|s| - |z|] == y && s[|s| - |z|..] == z
  {
  }

  /** The pieces of `s` between separators, empty ones included (what Python's
      `s.split(sep)` gives for a one-character separator). */
  function Split(s: string, sep: char): (r: seq<string>)
    ensures |r| >= 1
  {
    SplitFrom(s, sep, "")
  }

  /** Splitting with the characters of the current piece read so far in `cur`. */
  function SplitFrom(s: string, sep: char, cur: string): (r: seq<string>)
    ensures |r| >= 1
    decreases |s|
  {
    if s == [] then [cur]
    else if s[0] == sep then [cur] + SplitFrom(s[1..], sep, "")
    else SplitFrom(s[1..], sep, cur + [s[0]])
  }

  /** No piece of a split holds the separator. */
  lemma SplitPieces(s: string, sep: char)
    ensures forall p <- Split(s, sep) :: sep !in p
  {
    SplitFromPieces(s, sep, "");
  }

  lemma {:induction false} SplitFromPieces(s: string, sep: char, cur: string)
    requires sep !in cur
    ensures forall p <- SplitFrom(s, sep, cur) :: sep !in p
    decreases |s|
  {
    if s != [] {
      if s[0] == sep {
        SplitFromPieces(s[1..], sep, "");
      } else {
        SplitFromPieces(s[1..], sep, cur + [s[0]]);
      }
    }
  }

  /** The piece being read is the start of the first piece. */
  lemma {:induction false} SplitFromFirst(s: string, sep: char, cur: string)
    ensures |SplitFrom(s, sep, cur)[0]| >= |cur|
    decreases |s|
  {
    if s != [] && s[0] != sep {
      SplitFromFirst(s[1..], sep, cur + [s[0]]);
    }
  }

  /** Python's `sep.join(parts)`. */
  function Join(parts: seq<string>, sep: char): string
  {
    if |parts| == 0 then ""
    else if |parts| == 1 then parts[0]
    else parts[0] + [sep] + Join(parts[1..], sep)
  }

  /** Joining one more piece adds a separator and the piece. */
  lemma {:induction false} JoinSnoc(parts: seq<string>, x: string, sep: char)
    requires |parts| >= 1
    ensures Join(parts + [x], sep) == Join(parts, sep) + [sep] + x
    decreases |parts|
  {
    var ps := parts + [x];
    assert ps[0] == parts[0] && ps[1..] == parts[1..] + [x];
    if |parts| > 1 {
      JoinSnoc(parts[1..], x, sep);
      ConcatAssoc(parts[0] + [sep], Join(parts[1..], sep), [sep] + x);
      ConcatAssoc(Join(parts[1..], sep), [sep], x);
      ConcatAssoc(parts[0] + [sep] + Join(parts[1..], sep), [sep], x);
    }
  }

  /** Splitting at a separator splits the two sides independently. */
  lemma SplitConcat(a: string, b: string, sep: char)
    ensures Split(a + [sep] + b, sep) == Split(a, sep) + Split(b, sep)
  {
    SplitFromConcat(a, b, sep, "");
  }

  lemma {:induction false} SplitFromConcat(a: string, b: string, sep: char, cur: string)
    ensures SplitFrom(a + [sep] + b, sep, cur) == SplitFrom(a, sep, cur) + Split(b, sep)
    decreases |a|
  {
    var s := a + [sep] + b;
    if a == [] {
      assert s[0] == sep && s[1..] == b;
    } else {
      assert s[0] == a[0] && s[1..] == a[1..] + [sep] + b;
      if a[0] == sep {
        SplitFromConcat(a[1..], b, sep, "");
      } else {
        SplitFromConcat(a[1..], b, sep, cur + [a[0]]);
      }
    }
  }

  /** A string without the separator is a single piece. */
  lemma SplitNoSep(s: string, sep: char)
    requires sep !in s
    ensures Split(s, sep) == [s]
  {
    SplitFromNoSep(s, sep, "");
    assert "" + s == s;
  }

  lemma {:induction false} SplitFromNoSep(s: string, sep: char, cur: string)
    requires sep !in s
    ensures SplitFrom(s, sep, cur) == [cur + s]
    decreases |s|
  {
    if s != [] {
      assert s[0] in s && forall c <- s[1..] :: c in s;
      SplitFromNoSep(s[1..], sep, cur + [s[0]]);
      assert cur + [s[0]] + s[1..] == cur + s;
    } else {
      assert cur + s == cur;
    }
  }

  /** Joining pieces that do not contain the separator and splitting again gives
      the pieces back. */
  lemma {:induction false} SplitJoin(parts: seq<string>, sep: char)
    requires |parts| >= 1
    requires forall p <- parts :: sep !in p
    ensures Split(Join(parts, sep), sep) == parts
    decreases |parts|
  {
    if |parts| == 1 {
      SplitNoSep(parts[0], sep);
    } else {
      SplitJoin(parts[1..], sep);
      SplitConcat(parts[0], Join(parts[1..], sep), sep);
      SplitNoSep(parts[0], sep);
      assert [parts[0]] + parts[1..] == parts;
    }
  }

  /** Splitting and joining again gives the string back. */
  lemma JoinSplit(s: string, sep: char)
    ensures Join(Split(s, sep), sep) == s
  {
    JoinSplitFrom(s, sep, "");
  }

  lemma {:induction false} JoinSplitFrom(s: string, sep: char, cur: string)
    ensures Join(SplitFrom(s, sep, cur), sep) == cur + s
    decreases |s|
  {
    if s != [] {
      if s[0] == sep {
        JoinSplitFrom(s[1..], sep, "");
        var rest := SplitFrom(s[1..], sep, "");
        assert ([cur] + rest)[1..] == rest;
        assert cur + [sep] + s[1..] == cur + s;
      } else {
        JoinSplitFrom(s[1..], sep, cur + [s[0]]);
        assert cur + [s[0]] + s[1..] == cur + s;
      }
    }
  }

  /** The non-empty strings of `xs`, in order. */
  function NonEmpty(xs: seq<string>): (r: seq<string>)
    ensures forall x <- r :: x != "" && x in xs
    ensures |r| <= |xs|
  {
    if xs == [] then []
    else if xs[0] == "" then NonEmpty(xs[1..])
    else [xs[0]] + NonEmpty(xs[1..])
  }

  lemma {:induction false} NonEmptyConcat(a: seq<string>, b: seq<string>)
    ensures NonEmpty(a + b) == NonEmpty(a) + NonEmpty(b)
    decreases |a|
  {
    if a == [] {
      assert a + b == b;
    } else {
      NonEmptyConcat(a[1..], b);
      assert (a + b)[0] == a[0];
      assert (a + b)[1..] == a[1..] + b;
    }
  }

  /** The words of `s`: its space-separated pieces, empty ones dropped (Python's
      `[p for p in s.split(' ') if p]`). */
  function Words(s: string): (r: seq<string>)
    ensures forall x <- r :: x != "" && ' ' !in x
  {
    SplitPieces(s, ' ');
    NonEmpty(Split(s, ' '))
  }

  /** Putting one space between two strings concatenates their words. */
  lemma WordsConcat(a: string, b: string)
    ensures Words(a + " " + b) == Words(a) + Words(b)
  {
    SplitConcat(a, b, ' ');
    NonEmptyConcat(Split(a, ' '), Split(b, ' '));
  }

  /** A non-empty string without spaces is exactly one word. */
  lemma WordsOfWord(s: string)
    requires s != "" && ' ' !in s
    ensures Words(s) == [s]
  {
    SplitNoSep(s, ' ');
  }

  /** A string that does not start with a space has at least one word. */
  lemma WordsNotEmpty(s: string)
    requires |s| > 0 && s[0] != ' '
    ensures Words(s) != []
  {
    var pieces := SplitFrom(s[1..], ' ', [s[0]]);
    SplitFromFirst(s[1..], ' ', [s[0]]);
    assert "" + [s[0]] == [s[0]];
    assert Split(s, ' ') == pieces;
    assert pieces == [pieces[0]] + pieces[1..];
    assert pieces[0] != "";
  }

  /** The words of a sequence of strings, read in order. */
  function AllWords(xs: seq<string>): seq<string>
  {
    if xs == [] then [] else Words(xs[0]) + AllWords(xs[1..])
  }

  lemma {:induction false} AllWordsConcat(a: seq<string>, b: seq<string>)
    ensures AllWords(a + b) == AllWords(a) + AllWords(b)
    decreases |a|
  {
    if a == [] {
      assert a + b == b;
    } else {
      AllWordsConcat(a[1..], b);
      assert (a + b)[0] == a[0];
      assert (a + b)[1..] == a[1..] + b;
    }
  }

  /** Joining strings with single spaces keeps exactly their words. */
  lemma {:induction false} WordsOfJoin(xs: seq<string>)
    ensures Words(Join(xs, ' ')) == AllWords(xs)
    decreases |xs|
  {
    if |xs| == 0 {
    } else if |xs| == 1 {
      assert xs[1..] == [];
    } else {
      WordsOfJoin(xs[1..]);
      WordsConcat(xs[0], Join(xs[1..], ' '));
    }
  }
}
