/** The two string operations keyword extraction relies on: `unicode.split()`
    with no separator (break on runs of whitespace, drop empty pieces) and
    `unicode.lower()`, restricted here to ASCII letters. */
module Text {

  /** The characters `unicode.isspace()` accepts: ASCII whitespace, the
      information separators U+001C..U+001F, and the space separators, line
      and paragraph separators of Unicode 5.2, the character database of
      Python 2.7 (where U+180E MONGOLIAN VOWEL SEPARATOR is still a space). */
  predicate IsSpace(c: char) {
    c == ' ' || c == '\t' || c == '\n' || c == '\r' || c == '\U{000B}' || c == '\U{000C}'
    || ('\U{001C}' <= c <= '\U{001F}')
    || c == '\U{0085}' || c == '\U{00A0}' || c == '\U{1680}' || c == '\U{180E}'
    || ('\U{2000}' <= c <= '\U{200A}')
    || c == '\U{2028}' || c == '\U{2029}' || c == '\U{202F}' || c == '\U{205F}' || c == '\U{3000}'
  }

  /** `w` holds no whitespace. */
  predicate NoSpace(w: string) {
    forall i :: 0 <= i < |w| ==> !IsSpace(w[i])
  }

  /** The leading run of non-whitespace characters of `s`. */
  function Word(s: string): (w: string)
    ensures |w| <= |s| && w == s[..|w|]
    ensures NoSpace(w)
    ensures |w| < |s| ==> IsSpace(s[|w|])
    ensures s != [] && !IsSpace(s[0]) ==> w != []
    decreases |s|
  {
    if s == [] || IsSpace(s[0]) then []
    else
      var rest := Word(s[1..]);
      assert [s[0]] + rest == s[..|rest| + 1];
      [s[0]] + rest
  }

  /** `s.split()`: the maximal runs of non-whitespace characters, in order. */
  function Split(s: string): (ws: seq<string>)
    ensures forall i :: 0 <= i < |ws| ==> ws[i] != [] && NoSpace(ws[i])
    decreases |s|
  {
    if s == [] then []
    else if IsSpace(s[0]) then Split(s[1..])
    else
      var w := Word(s);
      [w] + Split(s[|w|..])
  }

  /** U+180E separates words, as it does in Python 2.7's `split()`. */
  lemma SplitAtVowelSeparator()
    ensures Split("a\U{180E}b") == ["a", "b"]
  {
    var s := "a\U{180E}b";
    assert Word(s[1..]) == [];
    assert Word(s) == "a";
    assert s[1..][1..] == "b";
    assert Word("b") == "b" && "b"[1..] == [];
  }

  /** The characters of `s` that are not whitespace, in order. */
  function NonSpace(s: string): string
    decreases |s|
  {
    if s == [] then []
    else (if IsSpace(s[0]) then [] else [s[0]]) + NonSpace(s[1..])
  }

  /** The words laid end to end. */
  function Concat(ws: seq<string>): string
    decreases |ws|
  {
    if ws == [] then [] else ws[0] + Concat(ws[1..])
  }

  /** `' '.join(ws)`. */
  function JoinSpace(ws: seq<string>): string
    decreases |ws|
  {
    if ws == [] then []
    else if |ws| == 1 then ws[0]
    else ws[0] + " " + JoinSpace(ws[1..])
  }

  lemma {:induction false} NonSpaceAppend(a: string, b: string)
    ensures NonSpace(a + b) == NonSpace(a) + NonSpace(b)
    decreases |a|
  {
    if a != [] {
      assert (a + b)[1..] == a[1..] + b;
      NonSpaceAppend(a[1..], b);
    } else {
      assert a + b == b;
    }
  }

  lemma {:induction false} NonSpaceOfWord(w: string)
    requires NoSpace(w)
    ensures NonSpace(w) == w
    decreases |w|
  {
    if w != [] {
      NonSpaceOfWord(w[1..]);
    }
  }

  /** Splitting loses exactly the whitespace: the words, laid end to end, are
      the non-whitespace characters of the input. */
  lemma {:induction false} SplitKeepsText(s: string)
    ensures Concat(Split(s)) == NonSpace(s)
    decreases |s|
  {
    if s != [] {
      if IsSpace(s[0]) {
        SplitKeepsText(s[1..]);
      } else {
        var w := Word(s);
        var rest := s[|w|..];
        SplitKeepsText(rest);
        assert s == w + rest;
        NonSpaceAppend(w, rest);
        NonSpaceOfWord(w);
        assert Split(s) == [w] + Split(rest);
        assert Concat(Split(s)) == w + Concat(Split(rest));
      }
    }
  }

  lemma {:induction false} WordOfJoin(w: string, t: string)
    requires NoSpace(w)
    requires t == [] || IsSpace(t[0])
    ensures Word(w + t) == w
    decreases |w|
  {
    if w == [] {
      assert w + t == t;
    } else {
      assert (w + t)[1..] == w[1..] + t;
      WordOfJoin(w[1..], t);
      assert w == [w[0]] + w[1..];
    }
  }

  /** A word followed by whitespace or nothing splits off as the first word. */
  lemma SplitOfWord(w: string, t: string)
    requires w != [] && NoSpace(w)
    requires t == [] || IsSpace(t[0])
    ensures Split(w + t) == [w] + Split(t)
  {
    WordOfJoin(w, t);
    assert (w + t)[|w|..] == t;
  }

  /** Joining words with single spaces and splitting again gives the words
      back, as long as each is non-empty and free of whitespace. */
  lemma {:induction false} SplitJoin(ws: seq<string>)
    requires forall i :: 0 <= i < |ws| ==> ws[i] != [] && NoSpace(ws[i])
    ensures Split(JoinSpace(ws)) == ws
    decreases |ws|
  {
    if ws != [] {
      var w := ws[0];
      if |ws| == 1 {
        SplitOfWord(w, []);
        assert w + [] == w;
      } else {
        var rest := JoinSpace(ws[1..]);
        var tail := " " + rest;
        assert JoinSpace(ws) == w + tail;
        SplitOfWord(w, tail);
        assert tail[1..] == rest;
        SplitJoin(ws[1..]);
        assert ws == [w] + ws[1..];
      }
    }
  }

  /** Two words joined by a space split back into the two. */
  lemma SplitTwoWords(a: string, b: string)
    requires a != [] && b != [] && NoSpace(a) && NoSpace(b)
    ensures Split(a + " " + b) == [a, b]
  {
    assert JoinSpace([a, b]) == a + " " + b by {
      assert [a, b][1..] == [b];
    }
    SplitJoin([a, b]);
  }

  /** ASCII lower-casing of one character. */
  function LowerChar(c: char): char {
    if 'A' <= c <= 'Z' then (c as int - 'A' as int + 'a' as int) as char else c
  }

  /** `s.lower()` on ASCII letters: every character lower-cased in place. */
  function Lower(s: string): (r: string)
    ensures |r| == |s| && forall i :: 0 <= i < |s| ==> r[i] == LowerChar(s[i])
  {
    seq(|s|, i requires 0 <= i < |s| => LowerChar(s[i]))
  }

  /** Lower-casing twice is lower-casing once. */
  lemma LowerIdempotent(s: string)
    ensures Lower(Lower(s)) == Lower(s)
  {
  }
}
