/**
 * The string operations the extractor relies on: `strip()`, `lower()`,
 * substring search (`in`), `split()[0]` and `endswith`. Whitespace and
 * case are the ASCII ones.
 */
module Text {
  import opened Wrappers

  /** ASCII whitespace: space, tab, line feed, vertical tab, form feed, carriage return. */
  predicate IsSpace(c: char) {
    c == ' ' || '\t' <= c <= '\r'
  }

  predicate AllSpace(s: string) {
    forall i :: 0 <= i < |s| ==> IsSpace(s[i])
  }

  /** Neither end of `s` is whitespace: what `strip()` leaves behind. */
  predicate NoEdgeSpace(s: string) {
    s == [] || (!IsSpace(s[0]) && !IsSpace(s[|s| - 1]))
  }

  /** Drops the leading whitespace. */
  function TrimStart(s: string): (r: string)
    ensures |r| <= |s| && r == s[|s| - |r|..]
    ensures AllSpace(s[..|s| - |r|])
    ensures r == [] || !IsSpace(r[0])
  {
    if s != [] && IsSpace(s[0]) then
      var r := TrimStart(s[1..]);
      assert s[..|s| - |r|] == [s[0]] + s[1..][..|s| - 1 - |r|];
      assert s[|s| - |r|..] == s[1..][|s| - 1 - |r|..];
      r
    else
      assert s[..0] == [];
      s
  }

  /** `s.strip()`: removes the whitespace at both ends. */
  function Strip(s: string): (r: string)
    ensures NoEdgeSpace(r)
  {
    if s != [] && IsSpace(s[0]) then Strip(s[1..])
    else if s != [] && IsSpace(s[|s| - 1]) then Strip(s[..|s| - 1])
    else s
  }

  /** Stripping removes nothing but whitespace, and only at the two ends. */
  lemma {:induction false} StripFrames(s: string)
    ensures exists i :: Framed(s, Strip(s), i)
  {
    var r := Strip(s);
    if s != [] && IsSpace(s[0]) {
      StripFrames(s[1..]);
      var i :| Framed(s[1..], r, i);
      FramedFront(s, r, i);
    } else if s != [] && IsSpace(s[|s| - 1]) {
      StripFrames(s[..|s| - 1]);
      var i :| Framed(s[..|s| - 1], r, i);
      FramedBack(s, r, i);
    } else {
      assert Framed(s, r, 0);
    }
  }

  /** A leading blank widens the frame in front. */
  lemma FramedFront(s: string, r: string, i: int)
    requires s != [] && IsSpace(s[0]) && Framed(s[1..], r, i)
    ensures Framed(s, r, i + 1)
  {
    assert s[i + 1..i + 1 + |r|] == s[1..][i..i + |r|];
    assert s[..i + 1] == [s[0]] + s[1..][..i];
    assert s[i + 1 + |r|..] == s[1..][i + |r|..];
  }

  /** A trailing blank widens the frame behind. */
  lemma FramedBack(s: string, r: string, i: int)
    requires s != [] && IsSpace(s[|s| - 1]) && Framed(s[..|s| - 1], r, i)
    ensures Framed(s, r, i)
  {
    var t := s[..|s| - 1];
    assert s[i..i + |r|] == t[i..i + |r|];
    assert s[..i] == t[..i];
    assert s[i + |r|..] == t[i + |r|..] + [s[|s| - 1]];
  }

  /** `s` is `r` with only whitespace before it (the first `i` characters) and after it. */
  predicate Framed(s: string, r: string, i: int) {
    0 <= i <= |s| - |r| && s[i..i + |r|] == r && AllSpace(s[..i]) && AllSpace(s[i + |r|..])
  }

  function LowerChar(c: char): char {
    if 'A' <= c <= 'Z' then (c as int + 32) as char else c
  }

  /** `s.lower()` on ASCII letters. */
  function Lower(s: string): (r: string)
    ensures |r| == |s|
  {
    seq(|s|, i requires 0 <= i < |s| => LowerChar(s[i]))
  }

  /** `needle in hay` for strings: `needle` occurs as a contiguous piece of `hay`. */
  predicate Contains(hay: string, needle: string) {
    exists i | 0 <= i <= |hay| :: OccursAt(hay, needle, i)
  }

  predicate OccursAt(hay: string, needle: string, i: int) {
    0 <= i <= |hay| - |needle| && hay[i..i + |needle|] == needle
  }

  /** `s.endswith(suffix)`. */
  predicate EndsWith(s: string, suffix: string) {
    |suffix| <= |s| && s[|s| - |suffix|..] == suffix
  }

  /** The longest prefix of `t` free of whitespace. */
  function Word(t: string): (w: string)
    ensures |w| <= |t| && w == t[..|w|]
    ensures forall i :: 0 <= i < |w| ==> !IsSpace(w[i])
    ensures |w| == |t| || IsSpace(t[|w|])
  {
    if t == [] || IsSpace(t[0]) then [] else [t[0]] + Word(t[1..])
  }

  /** A word: non-empty and free of whitespace, what `split()` yields. */
  predicate IsWord(w: string) {
    w != [] && forall i :: 0 <= i < |w| ==> !IsSpace(w[i])
  }

  /**
   * `s.split()[0]`: the first maximal run of non-whitespace characters, or
   * None where Python raises IndexError (`s` is empty or all whitespace).
   */
  function FirstToken(s: string): (w: Option<string>)
    ensures w.None? <==> AllSpace(s)
    ensures w.Some? ==> IsWord(w.value)
  {
    var t := TrimStart(s);
    if t == [] then
      assert s[..|s|] == s;
      None
    else
      Some(Word(t))
  }

  /** The token is preceded only by whitespace and ends at whitespace or at the end of `s`. */
  lemma FirstTokenIsFirstWord(s: string)
    requires FirstToken(s).Some?
    ensures var w := FirstToken(s).value;
            exists i :: 0 <= i < |s| && AllSpace(s[..i]) && i + |w| <= |s| && s[i..i + |w|] == w
                        && (i + |w| == |s| || IsSpace(s[i + |w|]))
  {
    var t := TrimStart(s);
    var i := |s| - |t|;
    var w := Word(t);
    assert t == s[i..];
    assert s[i..i + |w|] == t[..|w|] == w;
    assert i + |w| == |s| || s[i + |w|] == t[|w|];
    assert AllSpace(s[..i]);
  }

  /** A word of `t` followed by a blank is the word `Word` reads. */
  lemma {:induction false} WordBeforeBlank(w: string, rest: string)
    requires forall i :: 0 <= i < |w| ==> !IsSpace(w[i])
    ensures Word(w + " " + rest) == w
  {
    var t := w + " " + rest;
    if w == [] {
      assert t[0] == ' ';
    } else {
      assert t[1..] == w[1..] + " " + rest;
      WordBeforeBlank(w[1..], rest);
    }
  }

  /** The first token of a text that begins with a word and a blank is that word. */
  lemma FirstTokenBeforeBlank(w: string, rest: string)
    requires IsWord(w)
    ensures FirstToken(w + " " + rest) == Some(w)
  {
    var t := w + " " + rest;
    assert t[0] == w[0];
    assert TrimStart(t) == t;
    WordBeforeBlank(w, rest);
  }

  /** A non-empty stripped string always has a first token: it begins with one. */
  lemma StrippedHasToken(s: string)
    requires s != [] && NoEdgeSpace(s)
    ensures FirstToken(s).Some?
  {
    assert !IsSpace(s[0]);
  }
}
