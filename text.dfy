/** The string operations the chat code relies on, with Python's semantics:
    `str.strip()`, `str.split(sep)`, `sep.join(parts)`, `str.split()` (split on
    runs of whitespace) and the decimal formatting of an `int` in an f-string. */
module Text {

  /** The characters for which Python's `str.isspace()` holds. */
  predicate IsSpace(c: char) {
    || c == ' ' || ('\t' <= c <= '\r') || ('\U{1C}' <= c <= '\U{1F}')
    || c == '\U{85}' || c == '\U{A0}' || c == '\U{1680}'
    || ('\U{2000}' <= c <= '\U{200A}') || c == '\U{2028}' || c == '\U{2029}'
    || c == '\U{202F}' || c == '\U{205F}' || c == '\U{3000}'
  }

  predicate AllSpace(s: string) {
    forall i :: 0 <= i < |s| ==> IsSpace(s[i])
  }

  predicate NoSpace(s: string) {
    forall i :: 0 <= i < |s| ==> !IsSpace(s[i])
  }

  /** `s.lstrip()`: the suffix of `s` left after dropping leading whitespace. */
  function TrimStart(s: string): (r: string)
    ensures |r| <= |s| && r == s[|s| - |r|..]
    ensures r == "" || !IsSpace(r[0])
    ensures AllSpace(s[..|s| - |r|])
  {
    if s != "" && IsSpace(s[0]) then
      var r := TrimStart(s[1..]);
      assert s[..|s| - |r|] == [s[0]] + s[1..][..|s| - 1 - |r|];
      r
    else s
  }

  /** `s.rstrip()`: the prefix of `s` left after dropping trailing whitespace. */
  function TrimEnd(s: string): (r: string)
    ensures |r| <= |s| && r == s[..|r|]
    ensures r == "" || !IsSpace(r[|r| - 1])
    ensures AllSpace(s[|r|..])
  {
    if s != "" && IsSpace(s[|s| - 1]) then
      var r := TrimEnd(s[..|s| - 1]);
      assert s[|r|..] == s[..|s| - 1][|r|..] + [s[|s| - 1]];
      r
    else s
  }

  /** `s.strip()`: `s` without its leading and trailing whitespace; it is
      empty exactly when `s` is all whitespace. */
  function Strip(s: string): (r: string)
    ensures |r| <= |s|
    ensures r == "" || (!IsSpace(r[0]) && !IsSpace(r[|r| - 1]))
    ensures r == "" <==> AllSpace(s)
    ensures exists i, j :: 0 <= i <= j <= |s| && r == s[i..j] && AllSpace(s[..i]) && AllSpace(s[j..])
  {
    var t := TrimStart(s);
    var r := TrimEnd(t);
    StripSlice(s, t, r);
    r
  }

  /** Trimming the start of `s` to `t` and then the end of `t` to `r` leaves
      a slice of `s` with only whitespace around it. */
  lemma StripSlice(s: string, t: string, r: string)
    requires |t| <= |s| && t == s[|s| - |t|..] && AllSpace(s[..|s| - |t|])
    requires |r| <= |t| && r == t[..|r|] && AllSpace(t[|r|..])
    requires t == "" || !IsSpace(t[0])
    ensures r == "" <==> AllSpace(s)
    ensures exists i, j :: 0 <= i <= j <= |s| && r == s[i..j] && AllSpace(s[..i]) && AllSpace(s[j..])
  {
    var i := |s| - |t|;
    assert r == s[i..i + |r|] && AllSpace(s[i + |r|..]) by {
      assert t[|r|..] == s[i + |r|..];
    }
    if r == "" {
      assert t == "";
      assert s[..|s|] == s;
    }
  }

  /** `s.split(d)` for a non-empty separator: the separator is matched from
      the left, without overlap, and the pieces between matches are kept,
      empty ones included; there is always at least one piece. */
  function Split(s: string, d: string): (r: seq<string>)
    requires d != ""
    ensures |r| >= 1
    decreases |s|
  {
    if |d| <= |s| && s[..|d|] == d then [""] + Split(s[|d|..], d)
    else if s == "" then [""]
    else
      var rest := Split(s[1..], d);
      [[s[0]] + rest[0]] + rest[1..]
  }

  /** `d.join(parts)`. */
  function Join(d: string, parts: seq<string>): string {
    if |parts| == 0 then ""
    else if |parts| == 1 then parts[0]
    else parts[0] + d + Join(d, parts[1..])
  }

  /** Joining a piece in front of a non-empty list puts the separator
      between them. */
  lemma JoinCons(d: string, x: string, rest: seq<string>)
    requires |rest| >= 1
    ensures Join(d, [x] + rest) == x + d + Join(d, rest)
  {
    assert ([x] + rest)[1..] == rest;
  }

  /** Prefixing the first piece with `c` prefixes the joined text with `c`. */
  lemma JoinPrefix(d: string, c: char, rest: seq<string>)
    requires |rest| >= 1
    ensures Join(d, [[c] + rest[0]] + rest[1..]) == [c] + Join(d, rest)
  {
    var r := [[c] + rest[0]] + rest[1..];
    if |rest| > 1 {
      assert r[1..] == rest[1..];
      assert [c] + rest[0] + d + Join(d, rest[1..]) == [c] + (rest[0] + d + Join(d, rest[1..]));
    }
  }

  /** A sequence is its first `k` elements followed by the rest. */
  lemma TakeDrop<T>(s: seq<T>, k: nat)
    requires k <= |s|
    ensures s == s[..k] + s[k..]
  {
  }

  /** A non-empty slice is its first element followed by the rest. */
  lemma SliceCons<T>(s: seq<T>, i: nat, j: nat)
    requires i < j <= |s|
    ensures s[i..j] == [s[i]] + s[i + 1..j]
  {
  }

  /** A split that starts at a separator joins back when the split of the
      text after it does. */
  lemma JoinSplitAtSeparator(s: string, d: string)
    requires d != "" && |d| <= |s| && s[..|d|] == d
    requires Join(d, Split(s[|d|..], d)) == s[|d|..]
    ensures Join(d, Split(s, d)) == s
  {
    var rest := Split(s[|d|..], d);
    assert Split(s, d) == [""] + rest;
    JoinCons(d, "", rest);
    assert "" + d == d;
    TakeDrop(s, |d|);
  }

  /** A split that starts with an ordinary character joins back when the
      split of the text after it does. */
  lemma JoinSplitAtChar(s: string, d: string)
    requires d != "" && s != "" && !StartsWith(s, d)
    requires Join(d, Split(s[1..], d)) == s[1..]
    ensures Join(d, Split(s, d)) == s
  {
    var rest := Split(s[1..], d);
    assert Split(s, d) == [[s[0]] + rest[0]] + rest[1..];
    JoinPrefix(d, s[0], rest);
    TakeDrop(s, 1);
    assert s[..1] == [s[0]];
  }

  /** Joining the pieces of a split with the same separator gives back the text. */
  lemma {:induction false} JoinSplit(s: string, d: string)
    requires d != ""
    ensures Join(d, Split(s, d)) == s
    decreases |s|
  {
    if |d| <= |s| && s[..|d|] == d {
      JoinSplit(s[|d|..], d);
      JoinSplitAtSeparator(s, d);
    } else if s != "" {
      JoinSplit(s[1..], d);
      JoinSplitAtChar(s, d);
    }
  }

  /** Joining is compatible with concatenation of non-empty lists. */
  lemma {:induction false} JoinAppend(d: string, a: seq<string>, b: seq<string>)
    requires |a| >= 1 && |b| >= 1
    ensures Join(d, a + b) == Join(d, a) + d + Join(d, b)
    decreases |a|
  {
    if |a| == 1 {
      assert (a + b)[1..] == b;
    } else {
      JoinAppend(d, a[1..], b);
      assert (a + b)[1..] == a[1..] + b;
    }
  }

  /** `t` begins with `d`. */
  predicate StartsWith(t: string, d: string) {
    |d| <= |t| && t[..|d|] == d
  }

  /** `d` does not occur in `s`: not at its start, and not in its tail. */
  predicate Free(s: string, d: string)
    decreases |s|
  {
    !StartsWith(s, d) && (s == "" || Free(s[1..], d))
  }

  /** A text shorter than `d` is free of it. */
  lemma {:induction false} FreeShort(s: string, d: string)
    requires |s| < |d|
    ensures Free(s, d)
    decreases |s|
  {
    if s != "" {
      FreeShort(s[1..], d);
    }
  }

  /** The pieces of a split on `d` as the leftmost, non-overlapping matching
      leaves them: the last piece holds no `d`, and no `d` starts inside any
      other piece, not even one running into the separator after it. */
  predicate LeftmostPieces(r: seq<string>, d: string)
    requires d != ""
  {
    && r != []
    && Free(r[|r| - 1], d)
    && forall k :: 0 <= k < |r| - 1 ==> Free(r[k] + d[..|d| - 1], d)
  }

  /** A character in front of a text free of `d` leaves it free of `d`
      unless the result starts with `d`. */
  lemma FreeCons(c: char, x: string, d: string)
    requires Free(x, d) && !StartsWith([c] + x, d)
    ensures Free([c] + x, d)
  {
    assert ([c] + x)[1..] == x;
  }

  /** The first piece of a split is the whole text when it is the only one,
      and is otherwise followed by the separator in the text. */
  lemma SplitHead(s: string, d: string)
    requires d != ""
    ensures var r := Split(s, d);
      && (|r| == 1 ==> r[0] == s)
      && (|r| > 1 ==> |r[0]| + |d| <= |s| && s[..|r[0]| + |d|] == r[0] + d)
  {
    JoinSplit(s, d);
    var r := Split(s, d);
    if |r| > 1 {
      assert Join(d, r) == r[0] + d + Join(d, r[1..]);
      assert s[..|r[0]| + |d|] == (r[0] + d + Join(d, r[1..]))[..|r[0]| + |d|];
    }
  }

  /** `Split` matches the separator leftmost and without overlap, which with
      `JoinSplit` determines its pieces. */
  lemma {:induction false} SplitLeftmost(s: string, d: string)
    requires d != ""
    ensures LeftmostPieces(Split(s, d), d)
    decreases |s|
  {
    if |d| <= |s| && s[..|d|] == d {
      SplitLeftmost(s[|d|..], d);
      SplitLeftmostAtSeparator(s, d);
    } else if s != "" {
      SplitLeftmost(s[1..], d);
      SplitHead(s[1..], d);
      SplitLeftmostAtChar(s, d);
    }
  }

  /** A piece that no separator starts in, put in front of leftmost pieces,
      gives leftmost pieces. */
  lemma LeftmostCons(x: string, rest: seq<string>, d: string)
    requires d != "" && LeftmostPieces(rest, d) && Free(x + d[..|d| - 1], d)
    ensures LeftmostPieces([x] + rest, d)
  {
    var r := [x] + rest;
    forall k | 0 <= k < |r| - 1 ensures Free(r[k] + d[..|d| - 1], d) {
      if k > 0 {
        assert r[k] == rest[k - 1];
      }
    }
    assert r[|r| - 1] == rest[|rest| - 1];
  }

  /** Dropping the first of several leftmost pieces leaves leftmost pieces. */
  lemma LeftmostTail(r: seq<string>, d: string)
    requires d != "" && |r| > 1 && LeftmostPieces(r, d)
    ensures LeftmostPieces(r[1..], d)
  {
    forall k | 0 <= k < |r[1..]| - 1 ensures Free(r[1..][k] + d[..|d| - 1], d) {
      assert r[1..][k] == r[k + 1];
    }
    assert r[1..][|r[1..]| - 1] == r[|r| - 1];
  }

  lemma SplitLeftmostAtSeparator(s: string, d: string)
    requires d != "" && |d| <= |s| && s[..|d|] == d
    requires LeftmostPieces(Split(s[|d|..], d), d)
    ensures LeftmostPieces(Split(s, d), d)
  {
    assert Split(s, d) == [""] + Split(s[|d|..], d);
    FreeShort("" + d[..|d| - 1], d);
    LeftmostCons("", Split(s[|d|..], d), d);
  }

  /** `Split` on a text that does not start with the separator glues its
      first character to the first piece of the rest. */
  lemma SplitAtChar(s: string, d: string)
    requires d != "" && s != "" && !StartsWith(s, d)
    ensures var rest := Split(s[1..], d);
      Split(s, d) == [[s[0]] + rest[0]] + rest[1..]
  {
  }

  lemma SplitLeftmostAtChar(s: string, d: string)
    requires d != "" && s != "" && !StartsWith(s, d)
    requires LeftmostPieces(Split(s[1..], d), d)
    requires var rest := Split(s[1..], d);
      && (|rest| == 1 ==> rest[0] == s[1..])
      && (|rest| > 1 ==> |rest[0]| + |d| <= |s[1..]| && s[1..][..|rest[0]| + |d|] == rest[0] + d)
    ensures LeftmostPieces(Split(s, d), d)
  {
    SplitAtChar(s, d);
    assert s == [s[0]] + s[1..];
    GlueLeftmost(s[0], s[1..], Split(s[1..], d), d);
  }

  /** Gluing a character that does not start a separator to the first of
      leftmost pieces gives leftmost pieces. */
  lemma GlueLeftmost(c: char, text: string, rest: seq<string>, d: string)
    requires d != "" && !StartsWith([c] + text, d) && LeftmostPieces(rest, d)
    requires |rest| == 1 ==> rest[0] == text
    requires |rest| > 1 ==> |rest[0]| + |d| <= |text| && text[..|rest[0]| + |d|] == rest[0] + d
    ensures LeftmostPieces([[c] + rest[0]] + rest[1..], d)
  {
    if |rest| == 1 {
      FreeCons(c, text, d);
      assert [[c] + rest[0]] + rest[1..] == [[c] + text];
    } else {
      FirstPieceFree(c, text, rest[0], d);
      assert [c] + rest[0] + d[..|d| - 1] == [c] + (rest[0] + d[..|d| - 1]);
      LeftmostTail(rest, d);
      LeftmostCons([c] + rest[0], rest[1..], d);
    }
  }

  /** The first of several pieces, followed by all but the last separator
      character, holds no separator when the text does not start with one. */
  lemma FirstPieceFree(c: char, rest: string, x: string, d: string)
    requires d != "" && !StartsWith([c] + rest, d)
    requires |x| + |d| <= |rest| && rest[..|x| + |d|] == x + d
    requires Free(x + d[..|d| - 1], d)
    ensures Free([c] + (x + d[..|d| - 1]), d)
  {
    var y := x + d[..|d| - 1];
    assert rest[..|y|] == y;
    assert ([c] + rest)[..|d|] == ([c] + y)[..|d|];
    FreeCons(c, y, d);
  }

  /** The pieces that are not empty, in order (`[c for c in parts if c]`). */
  function NonEmpty(parts: seq<string>): (r: seq<string>)
    ensures |r| <= |parts|
    ensures forall i :: 0 <= i < |r| ==> r[i] != ""
  {
    if parts == [] then []
    else if parts[0] == "" then NonEmpty(parts[1..])
    else [parts[0]] + NonEmpty(parts[1..])
  }

  /** The filter keeps each piece by itself: a piece is kept exactly when it
      is not empty. */
  lemma NonEmptyOne(x: string)
    ensures NonEmpty([x]) == if x == "" then [] else [x]
  {
    assert [x][1..] == [];
  }

  /** The filter distributes over concatenation, so it keeps the order of
      the pieces it keeps. */
  lemma {:induction false} NonEmptyAppend(a: seq<string>, b: seq<string>)
    ensures NonEmpty(a + b) == NonEmpty(a) + NonEmpty(b)
    decreases |a|
  {
    if a == [] {
      assert a + b == b;
    } else {
      NonEmptyAppend(a[1..], b);
      assert (a + b)[1..] == a[1..] + b;
      assert (a + b)[0] == a[0];
    }
  }

  /** The length of the pieces, each counted with one separator. It is the
      length of their join plus one separator, and a measure the content
      splitter's halves are shown to shrink in. */
  function Weight(d: string, parts: seq<string>): nat {
    if parts == [] then 0 else |parts[0]| + |d| + Weight(d, parts[1..])
  }

  lemma {:induction false} WeightAppend(d: string, a: seq<string>, b: seq<string>)
    ensures Weight(d, a + b) == Weight(d, a) + Weight(d, b)
    decreases |a|
  {
    if a != [] {
      WeightAppend(d, a[1..], b);
      assert (a + b)[1..] == a[1..] + b;
    } else {
      assert a + b == b;
    }
  }

  lemma {:induction false} JoinLength(d: string, parts: seq<string>)
    requires |parts| >= 1
    ensures |Join(d, parts)| + |d| == Weight(d, parts)
    decreases |parts|
  {
    if |parts| > 1 {
      JoinLength(d, parts[1..]);
    }
  }

  lemma {:induction false} NonEmptyWeight(d: string, parts: seq<string>)
    ensures Weight(d, NonEmpty(parts)) <= Weight(d, parts)
    decreases |parts|
  {
    if parts != [] {
      NonEmptyWeight(d, parts[1..]);
      if parts[0] != "" {
        assert ([parts[0]] + NonEmpty(parts[1..]))[1..] == NonEmpty(parts[1..]);
      }
    }
  }

  /** `s.split()`: the maximal runs of non-whitespace characters, in order.
      Every word is non-empty and holds no whitespace, and there are no words
      exactly when `s` is all whitespace. */
  function Words(s: string): (r: seq<string>)
    ensures forall i :: 0 <= i < |r| ==> r[i] != "" && NoSpace(r[i])
    ensures s != "" && !IsSpace(s[0]) ==> |r| >= 1 && r[0][0] == s[0]
    ensures r == [] <==> AllSpace(s)
    decreases |s|
  {
    if s == "" then []
    else if IsSpace(s[0]) then
      var r := Words(s[1..]);
      assert AllSpace(s) <==> AllSpace(s[1..]) by {
        if AllSpace(s[1..]) {
          forall i | 0 <= i < |s| ensures IsSpace(s[i]) {
            if i > 0 { assert s[i] == s[1..][i - 1]; }
          }
        }
      }
      r
    else
      var rest := Words(s[1..]);
      if |s| > 1 && !IsSpace(s[1]) then
        var w := [s[0]] + rest[0];
        assert NoSpace(w) by {
          forall i | 0 <= i < |w| ensures !IsSpace(w[i]) {
            if i > 0 { assert w[i] == rest[0][i - 1]; }
          }
        }
        [w] + rest[1..]
      else [[s[0]]] + rest
  }

  /** The non-whitespace characters of `s`, in order. */
  function NonSpaceChars(s: string): string {
    if s == "" then "" else (if IsSpace(s[0]) then "" else [s[0]]) + NonSpaceChars(s[1..])
  }

  /** All the strings of a list, one after another. */
  function Concat(ws: seq<string>): string {
    if ws == [] then "" else ws[0] + Concat(ws[1..])
  }

  /** No character is lost or added by `Words`: its words, put back together,
      are the non-whitespace characters of `s` in order. */
  lemma {:induction false} WordsConcat(s: string)
    ensures Concat(Words(s)) == NonSpaceChars(s)
    decreases |s|
  {
    if s != "" {
      WordsConcat(s[1..]);
      if IsSpace(s[0]) {
      } else if |s| > 1 && !IsSpace(s[1]) {
        WordsConcatGlued(s);
      } else {
        WordsConcatAlone(s);
      }
    }
  }

  /** The three cases of `Words`, one equation each. */
  lemma WordsGlued(s: string)
    requires |s| > 1 && !IsSpace(s[0]) && !IsSpace(s[1])
    ensures Words(s) == [[s[0]] + Words(s[1..])[0]] + Words(s[1..])[1..]
  {
  }

  lemma WordsAlone(s: string)
    requires s != "" && !IsSpace(s[0]) && (|s| == 1 || IsSpace(s[1]))
    ensures Words(s) == [[s[0]]] + Words(s[1..])
  {
  }

  lemma ConcatCons(x: string, ws: seq<string>)
    ensures Concat([x] + ws) == x + Concat(ws)
  {
    assert ([x] + ws)[1..] == ws;
  }

  /** Gluing a character to the first string of a non-empty list puts it in
      front of their concatenation. */
  lemma ConcatGlue(c: char, ws: seq<string>)
    requires ws != []
    ensures Concat([[c] + ws[0]] + ws[1..]) == [c] + Concat(ws)
  {
    ConcatCons([c] + ws[0], ws[1..]);
  }

  lemma WordsConcatGlued(s: string)
    requires |s| > 1 && !IsSpace(s[0]) && !IsSpace(s[1])
    requires Concat(Words(s[1..])) == NonSpaceChars(s[1..])
    ensures Concat(Words(s)) == NonSpaceChars(s)
  {
    WordsGlued(s);
    ConcatGlue(s[0], Words(s[1..]));
  }

  lemma WordsConcatAlone(s: string)
    requires s != "" && !IsSpace(s[0]) && (|s| == 1 || IsSpace(s[1]))
    requires Concat(Words(s[1..])) == NonSpaceChars(s[1..])
    ensures Concat(Words(s)) == NonSpaceChars(s)
  {
    WordsAlone(s);
    ConcatCons([s[0]], Words(s[1..]));
  }

  /** A non-empty run of non-whitespace characters is one word. */
  lemma {:induction false} WordsOfWord(w: string)
    requires w != "" && NoSpace(w)
    ensures Words(w) == [w]
    decreases |w|
  {
    if |w| > 1 {
      assert NoSpace(w[1..]) by {
        forall i | 0 <= i < |w[1..]| ensures !IsSpace(w[1..][i]) {
          assert w[1..][i] == w[i + 1];
        }
      }
      WordsOfWord(w[1..]);
      WordsGlued(w);
      GlueSingle(w[0], w[1..], Words(w[1..]));
      assert [w[0]] + w[1..] == w;
    } else {
      WordsAlone(w);
      assert [w[0]] == w;
    }
  }

  lemma GlueSingle(c: char, x: string, ws: seq<string>)
    requires ws == [x]
    ensures [[c] + ws[0]] + ws[1..] == [[c] + x]
  {
  }

  lemma GlueAppend(c: char, ra: seq<string>, rb: seq<string>)
    requires ra != []
    ensures [[c] + (ra + rb)[0]] + (ra + rb)[1..] == ([[c] + ra[0]] + ra[1..]) + rb
  {
    assert (ra + rb)[1..] == ra[1..] + rb;
  }

  /** Words are maximal: a whitespace character always ends a word, so the
      words of `a`, a space and `b` are the words of `a` followed by the
      words of `b`, none of them glued across the space. */
  lemma {:induction false} WordsAcrossSpace(a: string, c: char, b: string)
    requires IsSpace(c)
    ensures Words(a + [c] + b) == Words(a) + Words(b)
    decreases |a|
  {
    var s := a + [c] + b;
    if a == "" {
      assert s == [c] + b && s[1..] == b;
    } else {
      assert s[1..] == a[1..] + [c] + b && s[0] == a[0];
      WordsAcrossSpace(a[1..], c, b);
      if IsSpace(a[0]) {
      } else if |a| > 1 && !IsSpace(a[1]) {
        assert s[1] == a[1];
        WordsAcrossGlued(a, b, s);
      } else {
        assert s[1] == if |a| > 1 then a[1] else c;
        WordsAcrossAlone(a, b, s);
      }
    }
  }

  lemma WordsAcrossGlued(a: string, b: string, s: string)
    requires |a| > 1 && |s| > 1 && s[0] == a[0] && s[1] == a[1] && !IsSpace(a[0]) && !IsSpace(a[1])
    requires Words(s[1..]) == Words(a[1..]) + Words(b)
    ensures Words(s) == Words(a) + Words(b)
  {
    assert Words(a[1..]) != [] by {
      assert a[1..][0] == a[1];
    }
    WordsGlued(a);
    WordsGlued(s);
    GlueAppend(a[0], Words(a[1..]), Words(b));
  }

  lemma WordsAcrossAlone(a: string, b: string, s: string)
    requires a != "" && |s| > 1 && s[0] == a[0] && !IsSpace(a[0]) && IsSpace(s[1])
    requires |a| == 1 || IsSpace(a[1])
    requires Words(s[1..]) == Words(a[1..]) + Words(b)
    ensures Words(s) == Words(a) + Words(b)
  {
    WordsAlone(a);
    WordsAlone(s);
    AppendAssoc([[a[0]]], Words(a[1..]), Words(b));
  }

  lemma AppendAssoc<T>(x: seq<T>, y: seq<T>, z: seq<T>)
    ensures x + (y + z) == (x + y) + z
  {
  }

  /** The decimal digit character for `n`. */
  function DigitChar(n: nat): (c: char)
    requires n < 10
    ensures '0' <= c <= '9' && c as int - '0' as int == n
  {
    ('0' as int + n) as char
  }

  /** The number a string of decimal digits denotes, most significant first. */
  function DigitsValue(r: string): nat
    requires forall i :: 0 <= i < |r| ==> '0' <= r[i] <= '9'
  {
    if r == [] then 0 else DigitsValue(r[..|r| - 1]) * 10 + (r[|r| - 1] as int - '0' as int)
  }

  /** `f"{n}"` for a non-negative integer: its decimal digits, most significant first. */
  function NatToString(n: nat): (r: string)
    ensures |r| >= 1
    ensures forall i :: 0 <= i < |r| ==> '0' <= r[i] <= '9'
    decreases n
  {
    if n < 10 then [DigitChar(n)] else NatToString(n / 10) + [DigitChar(n % 10)]
  }

  /** `NatToString(n)` is the decimal notation of `n`: its digits denote `n`,
      and it has no leading zero. */
  lemma {:induction false} NatToStringValue(n: nat)
    ensures DigitsValue(NatToString(n)) == n
    ensures |NatToString(n)| > 1 ==> NatToString(n)[0] != '0'
    decreases n
  {
    if n >= 10 {
      NatToStringValue(n / 10);
      var r := NatToString(n);
      var q := NatToString(n / 10);
      assert r == q + [DigitChar(n % 10)];
      assert r[..|r| - 1] == q;
      assert r[0] == q[0];
      if |q| == 1 {
        assert q == [DigitChar(n / 10)];
      }
    }
  }
}
