/**
 * Python's built-in string operations that the modelled code relies on:
 * `str.isspace`, `str.lower` (ASCII letters only), `startswith`, `in`,
 * `strip`, `split()` (on runs of whitespace), `split(c)`, `sep.join(...)`,
 * `rstrip(c)`, `replace(pat, "")` and `str(n)` for natural numbers.
 */
module Text {

  /** The characters for which Python's `str.isspace` holds: \t..\r,
      \x1c..\x1f, space, and the Unicode space and line separators. */
  const SpaceChars: set<char> := {
    '\U{9}', '\U{A}', '\U{B}', '\U{C}', '\U{D}', '\U{1C}', '\U{1D}', '\U{1E}',
    '\U{1F}', '\U{20}', '\U{85}', '\U{A0}', '\U{1680}', '\U{2000}', '\U{2001}', '\U{2002}',
    '\U{2003}', '\U{2004}', '\U{2005}', '\U{2006}', '\U{2007}', '\U{2008}', '\U{2009}', '\U{200A}',
    '\U{2028}', '\U{2029}', '\U{202F}', '\U{205F}', '\U{3000}'
  }

  predicate IsSpace(c: char)
  {
    c in SpaceChars
  }

  predicate AllSpace(s: string)
  {
    forall i :: 0 <= i < |s| ==> IsSpace(s[i])
  }

  predicate NoSpace(s: string)
  {
    forall i :: 0 <= i < |s| ==> !IsSpace(s[i])
  }

  /** A word as `str.split()` yields it: non-empty, without whitespace. */
  predicate IsWord(w: string)
  {
    w != [] && NoSpace(w)
  }

  function LowerChar(c: char): char
  {
    if 'A' <= c <= 'Z' then (c as int + 32) as char else c
  }

  /** `s.lower()`, restricted to the ASCII letters. */
  function Lower(s: string): (r: string)
    ensures |r| == |s|
    ensures forall i :: 0 <= i < |s| ==> r[i] == LowerChar(s[i])
  {
    seq(|s|, i requires 0 <= i < |s| => LowerChar(s[i]))
  }

  /** Lower-casing twice is lower-casing once. */
  lemma LowerIdempotent(s: string)
    ensures Lower(Lower(s)) == Lower(s)
  {
  }

  /** `s.startswith(p)` */
  predicate StartsWith(s: string, p: string)
    decreases |p|
  {
    p == [] || (s != [] && s[0] == p[0] && StartsWith(s[1..], p[1..]))
  }

  /** `t in s` for strings. */
  predicate Contains(s: string, t: string)
    decreases |s|
  {
    StartsWith(s, t) || (s != [] && Contains(s[1..], t))
  }

  /** `s.lstrip()` */
  function StripLeft(s: string): string
    decreases |s|
  {
    if s != [] && IsSpace(s[0]) then StripLeft(s[1..]) else s
  }

  /** `s.rstrip()` */
  function StripRight(s: string): string
    decreases |s|
  {
    if s != [] && IsSpace(s[|s| - 1]) then StripRight(s[..|s| - 1]) else s
  }

  /** `s.strip()` */
  function Strip(s: string): string
  {
    StripRight(StripLeft(s))
  }

  /** The longest prefix of `s` free of whitespace. */
  function WordPrefix(s: string): (w: string)
    ensures |w| <= |s| && w == s[..|w|]
    ensures NoSpace(w)
    ensures |w| == |s| || IsSpace(s[|w|])
    ensures s != [] && !IsSpace(s[0]) ==> |w| >= 1
    decreases |s|
  {
    if s == [] || IsSpace(s[0]) then [] else [s[0]] + WordPrefix(s[1..])
  }

  /** `s.split()`: the maximal runs of non-whitespace characters, in order. */
  function SplitWords(s: string): (ws: seq<string>)
    ensures forall w :: w in ws ==> IsWord(w)
    decreases |s|
  {
    if s == [] then []
    else if IsSpace(s[0]) then SplitWords(s[1..])
    else
      var w := WordPrefix(s);
      [w] + SplitWords(s[|w|..])
  }

  /** `sep.join(parts)` */
  function Join(parts: seq<string>, sep: string): string
  {
    if parts == [] then ""
    else if |parts| == 1 then parts[0]
    else parts[0] + sep + Join(parts[1..], sep)
  }

  /** The words of every part, part after part. */
  function Words(parts: seq<string>): seq<string>
  {
    if parts == [] then [] else SplitWords(parts[0]) + Words(parts[1..])
  }

  /** `s.split(c)` for a single-character separator. */
  function SplitOn(s: string, c: char): (parts: seq<string>)
    ensures |parts| >= 1
    ensures forall p :: p in parts ==> c !in p
    decreases |s|
  {
    if s == [] then [[]]
    else if s[0] == c then [[]] + SplitOn(s[1..], c)
    else
      var rest := SplitOn(s[1..], c);
      [[s[0]] + rest[0]] + rest[1..]
  }

  /** `s.rstrip(c)` for one character `c`. */
  function StripRightChar(s: string, c: char): (r: string)
    ensures |r| <= |s| && r == s[..|r|]
    ensures r == [] || r[|r| - 1] != c
    ensures forall i :: |r| <= i < |s| ==> s[i] == c
    decreases |s|
  {
    if s != [] && s[|s| - 1] == c then StripRightChar(s[..|s| - 1], c) else s
  }

  /** `s.replace(pat, "")`: every non-overlapping occurrence of `pat`,
      scanning from the left, is removed. */
  function RemoveAll(s: string, pat: string): (r: string)
    requires pat != []
    ensures |r| <= |s|
    decreases |s|
  {
    if |s| < |pat| then s
    else if s[..|pat|] == pat then RemoveAll(s[|pat|..], pat)
    else [s[0]] + RemoveAll(s[1..], pat)
  }

  function DigitChar(d: nat): char
    requires d < 10
  {
    ['0', '1', '2', '3', '4', '5', '6', '7', '8', '9'][d]
  }

  /** `str(n)` for a natural number. */
  function NatToString(n: nat): (s: string)
    ensures s != []
  {
    if n < 10 then [DigitChar(n)] else NatToString(n / 10) + [DigitChar(n % 10)]
  }

  /** `str(n)` for an integer: a minus sign before a negative one. */
  function IntToString(n: int): (s: string)
    ensures s != []
  {
    if n < 0 then "-" + NatToString(-n) else NatToString(n)
  }

  // ---------------------------------------------------------------------
  // Lemmas about splitting on whitespace

  lemma {:induction false} SplitWordsAllSpace(s: string)
    requires AllSpace(s)
    ensures SplitWords(s) == []
    decreases |s|
  {
    if s != [] {
      SplitWordsAllSpace(s[1..]);
    }
  }

  lemma SplitWordsOfWord(w: string)
    requires IsWord(w)
    ensures SplitWords(w) == [w]
  {
    var p := WordPrefix(w);
    assert |p| == |w|;
    assert p == w;
    assert !IsSpace(w[0]);
    assert SplitWords(w) == [p] + SplitWords(w[|p|..]);
    assert w[|p|..] == [];
  }

  /** The first word is not extended by what follows a whitespace boundary. */
  lemma {:induction false} WordPrefixAppend(a: string, b: string)
    requires (a != [] && IsSpace(a[|a| - 1])) || b == [] || IsSpace(b[0])
    ensures WordPrefix(a + b) == WordPrefix(a)
    decreases |a|
  {
    if a == [] {
      assert a + b == b;
    } else if IsSpace(a[0]) {
    } else {
      assert (a + b)[1..] == a[1..] + b;
      WordPrefixAppend(a[1..], b);
    }
  }

  /** Splitting distributes over a concatenation cut at whitespace. */
  lemma {:induction false} SplitWordsAppend(a: string, b: string)
    requires a == [] || IsSpace(a[|a| - 1]) || b == [] || IsSpace(b[0])
    ensures SplitWords(a + b) == SplitWords(a) + SplitWords(b)
    decreases |a|, 1
  {
    if a == [] {
      assert a + b == b;
    } else if IsSpace(a[0]) {
      SplitWordsAppendSpaceFirst(a, b);
    } else {
      SplitWordsAppendWordFirst(a, b);
    }
  }

  lemma {:induction false} SplitWordsAppendSpaceFirst(a: string, b: string)
    requires a != [] && IsSpace(a[0])
    requires IsSpace(a[|a| - 1]) || b == [] || IsSpace(b[0])
    ensures SplitWords(a + b) == SplitWords(a) + SplitWords(b)
    decreases |a|, 0
  {
    var ab := a + b;
    assert ab[0] == a[0];
    assert ab[1..] == a[1..] + b;
    if |a| > 1 {
      assert a[1..][|a| - 2] == a[|a| - 1];
    }
    SplitWordsAppend(a[1..], b);
  }

  lemma {:induction false} SplitWordsAppendWordFirst(a: string, b: string)
    requires a != [] && !IsSpace(a[0])
    requires IsSpace(a[|a| - 1]) || b == [] || IsSpace(b[0])
    ensures SplitWords(a + b) == SplitWords(a) + SplitWords(b)
    decreases |a|, 0
  {
    var ab := a + b;
    assert ab[0] == a[0];
    WordPrefixAppend(a, b);
    var w := WordPrefix(a);
    var rest := a[|w|..];
    assert ab[|w|..] == rest + b;
    if IsSpace(a[|a| - 1]) {
      assert |w| < |a|;
      assert rest[|rest| - 1] == a[|a| - 1];
    }
    SplitWordsAppend(rest, b);
    calc {
      SplitWords(ab);
      [w] + SplitWords(rest + b);
      [w] + (SplitWords(rest) + SplitWords(b));
      ([w] + SplitWords(rest)) + SplitWords(b);
    }
  }

  /** Splitting a join on a whitespace separator gives back the parts' words. */
  lemma {:induction false} SplitWordsJoin(parts: seq<string>, sep: string)
    requires sep != [] && AllSpace(sep)
    ensures SplitWords(Join(parts, sep)) == Words(parts)
    decreases |parts|
  {
    if |parts| == 1 {
      assert Words(parts[1..]) == [];
    } else if |parts| > 1 {
      var rest := Join(parts[1..], sep);
      assert Join(parts, sep) == parts[0] + (sep + rest);
      SplitWordsAppend(parts[0], sep + rest);
      SplitWordsAppend(sep, rest);
      SplitWordsAllSpace(sep);
      SplitWordsJoin(parts[1..], sep);
    }
  }

  lemma {:induction false} WordsOfWords(ws: seq<string>)
    requires forall w :: w in ws ==> IsWord(w)
    ensures Words(ws) == ws
    decreases |ws|
  {
    if ws != [] {
      SplitWordsOfWord(ws[0]);
      WordsOfWords(ws[1..]);
    }
  }

  /** `" ".join(ws).split() == ws` for a list of words. */
  lemma JoinWordsRoundTrip(ws: seq<string>, sep: string)
    requires sep != [] && AllSpace(sep)
    requires forall w :: w in ws ==> IsWord(w)
    ensures SplitWords(Join(ws, sep)) == ws
  {
    SplitWordsJoin(ws, sep);
    WordsOfWords(ws);
  }

  /** `lstrip` removes a prefix of whitespace and leaves no leading whitespace. */
  lemma {:induction false} StripLeftShape(s: string)
    ensures |StripLeft(s)| <= |s| && StripLeft(s) == s[|s| - |StripLeft(s)|..]
    ensures AllSpace(s[..|s| - |StripLeft(s)|])
    ensures StripLeft(s) == [] || !IsSpace(StripLeft(s)[0])
    decreases |s|
  {
    if s != [] && IsSpace(s[0]) {
      StripLeftShape(s[1..]);
      var k := |s| - |StripLeft(s)|;
      assert s[..k] == [s[0]] + s[1..][..k - 1];
    }
  }

  /** `rstrip` removes a suffix of whitespace and leaves no trailing whitespace. */
  lemma {:induction false} StripRightShape(s: string)
    ensures |StripRight(s)| <= |s| && StripRight(s) == s[..|StripRight(s)|]
    ensures AllSpace(s[|StripRight(s)|..])
    ensures StripRight(s) == [] || !IsSpace(StripRight(s)[|StripRight(s)| - 1])
    decreases |s|
  {
    if s != [] && IsSpace(s[|s| - 1]) {
      var t := s[..|s| - 1];
      StripRightShape(t);
      var k := |StripRight(s)|;
      assert s[k..] == t[k..] + [s[|s| - 1]];
    }
  }

  /** `strip` leaves a string that neither starts nor ends with whitespace. */
  lemma StripShape(s: string)
    ensures |Strip(s)| <= |s|
    ensures Strip(s) == [] || (!IsSpace(Strip(s)[0]) && !IsSpace(Strip(s)[|Strip(s)| - 1]))
  {
    var l := StripLeft(s);
    StripLeftShape(s);
    StripRightShape(l);
    var r := StripRight(l);
    if r != [] {
      assert r[0] == l[0];
    }
  }

  lemma SplitWordsStripLeft(s: string)
    ensures SplitWords(StripLeft(s)) == SplitWords(s)
  {
    StripLeftShape(s);
    var l := StripLeft(s);
    var lead := s[..|s| - |l|];
    assert s == lead + l;
    SplitWordsAppend(lead, l);
    SplitWordsAllSpace(lead);
  }

  lemma SplitWordsStripRight(s: string)
    ensures SplitWords(StripRight(s)) == SplitWords(s)
  {
    StripRightShape(s);
    var r := StripRight(s);
    var tail := s[|r|..];
    assert s == r + tail;
    SplitWordsAppend(r, tail);
    SplitWordsAllSpace(tail);
  }

  /** Stripping never changes the words. */
  lemma SplitWordsStrip(s: string)
    ensures SplitWords(Strip(s)) == SplitWords(s)
  {
    SplitWordsStripLeft(s);
    SplitWordsStripRight(StripLeft(s));
  }

  /** A string strips to nothing exactly when it has no words. */
  lemma StripEmptyIffNoWords(s: string)
    ensures Strip(s) == [] <==> SplitWords(s) == []
  {
    SplitWordsStrip(s);
    StripShape(s);
    var t := Strip(s);
    if t != [] {
      assert !IsSpace(t[0]);
      assert SplitWords(t) != [];
    }
  }

  /** `c.join(s.split(c)) == s` */
  lemma {:induction false} SplitOnJoin(s: string, c: char)
    ensures Join(SplitOn(s, c), [c]) == s
    decreases |s|
  {
    if s != [] {
      var rest := SplitOn(s[1..], c);
      SplitOnJoin(s[1..], c);
      if s[0] == c {
        assert SplitOn(s, c)[1..] == rest;
      } else if |rest| > 1 {
        assert SplitOn(s, c)[1..] == rest[1..];
        assert Join(rest, [c]) == rest[0] + [c] + Join(rest[1..], [c]);
      }
    }
  }
}
