/**
 * The handful of Python `str` operations the scripts rely on: `isspace`,
 * `strip`, `lower`, `split()` with no separator and `" ".join`.
 */
module PyText {

  /** Python's `str.isspace()` for one character (the Unicode whitespace set). */
  predicate IsSpace(c: char) {
    || c == ' '
    || ('\t' <= c <= '\r')
    || ('\U{1C}' <= c <= '\U{1F}')
    || c == '\U{85}'
    || c == '\U{A0}'
    || c == '\U{1680}'
    || ('\U{2000}' <= c <= '\U{200A}')
    || c == '\U{2028}'
    || c == '\U{2029}'
    || c == '\U{202F}'
    || c == '\U{205F}'
    || c == '\U{3000}'
  }

  predicate AllSpace(s: string) {
    forall i :: 0 <= i < |s| ==> IsSpace(s[i])
  }

  lemma AllSpaceAppend(x: string, y: string)
    requires AllSpace(x) && AllSpace(y)
    ensures AllSpace(x + y)
  {
    assert forall i :: |x| <= i < |x + y| ==> (x + y)[i] == y[i - |x|];
  }

  /**
   * Python's `s.strip()`: drops leading and trailing whitespace, one
   * character at a time from either end.
   */
  function Strip(s: string): (r: string)
    ensures |r| <= |s|
    ensures r != [] ==> !IsSpace(r[0]) && !IsSpace(r[|r| - 1])
    ensures r == [] <==> AllSpace(s)
    ensures s != [] && !IsSpace(s[0]) && !IsSpace(s[|s| - 1]) ==> r == s
    ensures TrimmedFrom(s, r)
    decreases |s|
  {
    if s != [] && IsSpace(s[0]) then
      assert forall i :: 1 <= i < |s| ==> s[i] == s[1..][i - 1];
      Strip(s[1..])
    else if s != [] && IsSpace(s[|s| - 1]) then
      assert forall i :: 0 <= i < |s| - 1 ==> s[i] == s[..|s| - 1][i];
      Strip(s[..|s| - 1])
    else
      s
  }

  /** `r` is `s` with whitespace characters removed from either end, one at a time. */
  predicate TrimmedFrom(s: string, r: string)
    decreases |s|
  {
    || r == s
    || (s != [] && IsSpace(s[0]) && TrimmedFrom(s[1..], r))
    || (s != [] && IsSpace(s[|s| - 1]) && TrimmedFrom(s[..|s| - 1], r))
  }

  /** `r` is `s` without some whitespace prefix and some whitespace suffix. */
  predicate IsMiddle(s: string, r: string) {
    exists a, b :: 0 <= a <= b <= |s| && r == s[a..b] && AllSpace(s[..a]) && AllSpace(s[b..])
  }

  lemma MiddleAfterHead(s: string, r: string)
    requires s != [] && IsSpace(s[0]) && IsMiddle(s[1..], r)
    ensures IsMiddle(s, r)
  {
    var t := s[1..];
    var a, b :| 0 <= a <= b <= |t| && r == t[a..b] && AllSpace(t[..a]) && AllSpace(t[b..]);
    assert t[a..b] == s[a + 1..b + 1];
    assert t[b..] == s[b + 1..];
    assert s[..a + 1] == [s[0]] + t[..a];
    AllSpaceAppend([s[0]], t[..a]);
  }

  lemma MiddleBeforeLast(s: string, r: string)
    requires s != [] && IsSpace(s[|s| - 1]) && IsMiddle(s[..|s| - 1], r)
    ensures IsMiddle(s, r)
  {
    var t := s[..|s| - 1];
    var a, b :| 0 <= a <= b <= |t| && r == t[a..b] && AllSpace(t[..a]) && AllSpace(t[b..]);
    assert t[a..b] == s[a..b];
    assert t[..a] == s[..a];
    assert s[b..] == t[b..] + [s[|s| - 1]];
    AllSpaceAppend(t[b..], [s[|s| - 1]]);
  }

  /** What trimming keeps is a slice of the text with only whitespace around it. */
  lemma {:induction false} TrimmedIsMiddle(s: string, r: string)
    requires TrimmedFrom(s, r)
    ensures IsMiddle(s, r)
    decreases |s|
  {
    if r == s {
      assert s[0..|s|] == s && s[..0] == [] && s[|s|..] == [];
    } else if s != [] && IsSpace(s[0]) && TrimmedFrom(s[1..], r) {
      TrimmedIsMiddle(s[1..], r);
      MiddleAfterHead(s, r);
    } else {
      TrimmedIsMiddle(s[..|s| - 1], r);
      MiddleBeforeLast(s, r);
    }
  }

  /** `strip()` keeps exactly the text between the leading and the trailing whitespace. */
  lemma StripIsMiddle(s: string)
    ensures IsMiddle(s, Strip(s))
  {
    TrimmedIsMiddle(s, Strip(s));
  }

  /**
   * Python's `str.lower()` for one character. Only ASCII and Latin-1 capitals
   * are mapped; every other character is returned unchanged.
   */
  function LowerChar(c: char): char {
    if 'A' <= c <= 'Z' || ('\U{C0}' <= c <= '\U{DE}' && c != '\U{D7}') then
      (c as int + 32) as char
    else
      c
  }

  function Lower(s: string): (r: string)
    ensures |r| == |s|
    ensures forall i {:trigger r[i]} :: 0 <= i < |s| ==> r[i] == LowerChar(s[i])
  {
    if s == [] then [] else [LowerChar(s[0])] + Lower(s[1..])
  }

  /** A word of `str.split()`: a non-empty run of non-whitespace characters. */
  predicate IsWord(w: string) {
    w != [] && forall i :: 0 <= i < |w| ==> !IsSpace(w[i])
  }

  predicate AllWords(ws: seq<string>) {
    forall k :: 0 <= k < |ws| ==> IsWord(ws[k])
  }

  /** Length of the run of non-whitespace characters that starts `s`. */
  function WordLength(s: string): (n: nat)
    ensures n <= |s|
    ensures forall i :: 0 <= i < n ==> !IsSpace(s[i])
    ensures n < |s| ==> IsSpace(s[n])
  {
    if s == [] || IsSpace(s[0]) then 0 else 1 + WordLength(s[1..])
  }

  /** Python's `s.split()` with no separator: the maximal runs of non-whitespace, in order. */
  function Words(s: string): (ws: seq<string>)
    ensures AllWords(ws)
    ensures ws == [] <==> AllSpace(s)
    decreases |s|
  {
    if s == [] then []
    else if IsSpace(s[0]) then
      assert forall i :: 1 <= i < |s| ==> s[i] == s[1..][i - 1];
      Words(s[1..])
    else
      var n := WordLength(s);
      [s[..n]] + Words(s[n..])
  }

  /** Python's `" ".join(ws)`. */
  function JoinWords(ws: seq<string>): string {
    if ws == [] then ""
    else if |ws| == 1 then ws[0]
    else ws[0] + " " + JoinWords(ws[1..])
  }

  /**
   * A collapsed text: every whitespace character in it is a single ASCII
   * space with a non-whitespace character on each side.
   */
  predicate Collapsed(s: string) {
    forall i :: 0 <= i < |s| && IsSpace(s[i]) ==>
      s[i] == ' ' && 0 < i < |s| - 1 && !IsSpace(s[i + 1])
  }

  lemma {:induction false} WordLengthOfWord(w: string, t: string)
    requires IsWord(w)
    requires t == [] || IsSpace(t[0])
    ensures WordLength(w + t) == |w|
  {
    if |w| > 1 {
      assert (w + t)[1..] == w[1..] + t;
      WordLengthOfWord(w[1..], t);
    } else {
      assert (w + t)[1..] == t;
    }
  }

  /** Splitting a word followed by whitespace (or nothing) yields that word first. */
  lemma WordsOfWordThen(w: string, t: string)
    requires IsWord(w)
    requires t == [] || IsSpace(t[0])
    ensures Words(w + t) == [w] + Words(t)
  {
    WordLengthOfWord(w, t);
    assert (w + t)[..|w|] == w;
    assert (w + t)[|w|..] == t;
  }

  /** Whitespace before a text is dropped by splitting. */
  lemma WordsOfSpaceThen(c: char, t: string)
    requires IsSpace(c)
    ensures Words([c] + t) == Words(t)
  {
    assert ([c] + t)[1..] == t;
  }

  /** Joining words with single spaces and splitting again gives the same words back. */
  lemma {:induction false} WordsOfJoin(ws: seq<string>)
    requires AllWords(ws)
    ensures Words(JoinWords(ws)) == ws
  {
    if |ws| == 1 {
      WordsOfWordThen(ws[0], "");
      assert ws[0] + "" == ws[0];
    } else if |ws| > 1 {
      var rest := JoinWords(ws[1..]);
      WordsOfJoin(ws[1..]);
      assert ws[0] + " " + rest == ws[0] + (" " + rest);
      WordsOfWordThen(ws[0], " " + rest);
      assert (" " + rest)[1..] == rest;
    }
  }

  /** Joining words with single spaces gives a collapsed text that starts with the first word. */
  lemma {:induction false} JoinCollapsed(ws: seq<string>)
    requires AllWords(ws)
    ensures Collapsed(JoinWords(ws))
    ensures ws != [] ==> JoinWords(ws) != [] && JoinWords(ws)[0] == ws[0][0]
  {
    if |ws| > 1 {
      JoinCollapsed(ws[1..]);
      var w, rest := ws[0], JoinWords(ws[1..]);
      var s := w + " " + rest;
      assert s == JoinWords(ws);
      forall i | 0 <= i < |s| && IsSpace(s[i])
        ensures s[i] == ' ' && 0 < i < |s| - 1 && !IsSpace(s[i + 1])
      {
        if i == |w| {
          assert s[i + 1] == rest[0];
        } else if i > |w| {
          assert s[i] == rest[i - |w| - 1];
          assert i + 1 < |s| ==> s[i + 1] == rest[i - |w|];
        }
      }
    }
  }
}
