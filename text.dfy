/**
 * Text handling shared by the scorers: `str.lower()`, the word tokenizer
 * `re.findall(r'\b\w+\b', ...)`, and Python's substring test `k in s`.
 * Characters are modelled on their ASCII range only.
 */
module Text {

  /** The regular-expression class `\w` restricted to ASCII: letters, digits and underscore. */
  predicate IsWordChar(c: char) {
    ('a' <= c <= 'z') || ('A' <= c <= 'Z') || ('0' <= c <= '9') || c == '_'
  }

  /** `str.lower()` on one character (ASCII upper-case letters only). */
  function LowerChar(c: char): char {
    if 'A' <= c <= 'Z' then (c as int + 32) as char else c
  }

  /** `str.lower()` on a whole string. */
  function Lower(s: string): string {
    seq(|s|, i requires 0 <= i < |s| => LowerChar(s[i]))
  }

  predicate AllWordChars(t: string) {
    forall i :: 0 <= i < |t| ==> IsWordChar(t[i])
  }

  /** Length of the longest prefix of `s` made of word characters. */
  function RunLength(s: string): (n: nat)
    ensures n <= |s|
    ensures forall i :: 0 <= i < n ==> IsWordChar(s[i])
    ensures n < |s| ==> !IsWordChar(s[n])
  {
    if s == [] || !IsWordChar(s[0]) then 0 else 1 + RunLength(s[1..])
  }

  /**
   * `re.findall(r'\b\w+\b', s)`: the maximal runs of word characters, left to right.
   * Because `\w+` is greedy and a match may only start at a word boundary,
   * every match is a whole run.
   */
  function Tokenize(s: string): (tokens: seq<string>)
    ensures forall t :: t in tokens ==> |t| > 0 && AllWordChars(t)
    decreases |s|
  {
    if s == [] then []
    else if !IsWordChar(s[0]) then Tokenize(s[1..])
    else
      var n := RunLength(s);
      [s[..n]] + Tokenize(s[n..])
  }

  /** The word tokens of a transcript, as app.py computes them from `transcript.lower()`. */
  function Words(transcript: string): seq<string> {
    Tokenize(Lower(transcript))
  }

  /** `RunLength` is the first index holding a non-word character (or the length). */
  lemma RunLengthUnique(s: string, n: nat)
    requires n <= |s|
    requires forall i :: 0 <= i < n ==> IsWordChar(s[i])
    requires n < |s| ==> !IsWordChar(s[n])
    ensures RunLength(s) == n
  {
  }

  /** A text with no word character has no tokens (empty or whitespace-only text gives zero words). */
  lemma {:induction false} TokenizeNoWordChars(s: string)
    requires forall i :: 0 <= i < |s| ==> !IsWordChar(s[i])
    ensures Tokenize(s) == []
    decreases |s|
  {
    if s != [] {
      TokenizeNoWordChars(s[1..]);
    }
  }

  /** A single run of word characters is exactly one token. */
  lemma TokenizeRun(w: string)
    requires |w| > 0 && AllWordChars(w)
    ensures Tokenize(w) == [w]
  {
    RunLengthUnique(w, |w|);
    assert w[..|w|] == w;
    assert w[|w|..] == [];
  }

  /** A non-word character splits the text: the tokens on each side are found independently. */
  lemma {:induction false} TokenizeSeparator(a: string, c: char, b: string)
    requires !IsWordChar(c)
    ensures Tokenize(a + [c] + b) == Tokenize(a) + Tokenize(b)
    decreases |a|
  {
    var s := a + [c] + b;
    if a == [] {
      assert s[1..] == b;
    } else if !IsWordChar(a[0]) {
      assert s[1..] == a[1..] + [c] + b;
      TokenizeSeparator(a[1..], c, b);
    } else {
      var n := RunLength(a);
      RunLengthUnique(s, n);
      assert s[..n] == a[..n];
      assert s[n..] == a[n..] + [c] + b;
      TokenizeSeparator(a[n..], c, b);
    }
  }

  /** No token contains a space, so a phrase with a space can never equal a token. */
  lemma TokensHaveNoSpace(s: string, t: string)
    requires t in Tokenize(s)
    ensures ' ' !in t
  {
  }

  /** `k` occurs in `s` starting at index `i`. */
  predicate OccursAt(k: string, s: string, i: int) {
    0 <= i && i + |k| <= |s| && s[i..i + |k|] == k
  }

  /** Python's `k in s` for strings: `k` is a contiguous piece of `s`. */
  predicate IsSubstring(k: string, s: string)
    decreases |s|
  {
    k <= s || (s != [] && IsSubstring(k, s[1..]))
  }

  /** The recursive substring search agrees with "occurs at some index". */
  lemma {:induction false} SubstringIff(k: string, s: string)
    ensures IsSubstring(k, s) <==> exists i :: OccursAt(k, s, i)
    decreases |s|
  {
    if k <= s {
      assert OccursAt(k, s, 0);
    } else if s != [] {
      SubstringIff(k, s[1..]);
      if IsSubstring(k, s[1..]) {
        var i :| OccursAt(k, s[1..], i);
        assert s[1..][i..i + |k|] == s[i + 1..i + 1 + |k|];
        assert OccursAt(k, s, i + 1);
      }
      forall i | OccursAt(k, s, i) ensures IsSubstring(k, s[1..]) {
        if i > 0 {
          assert s[1..][i - 1..i - 1 + |k|] == s[i..i + |k|];
          assert OccursAt(k, s[1..], i - 1);
        }
      }
    }
  }
}
