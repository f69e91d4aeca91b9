/** Word counting as done by `count_words` (app.py:59-60): the number of
    matches of the regular expression `\w+`, that is, the number of maximal
    runs of word characters in a text. */
module Words {

  /** A word character. Python's `\w` on `str` is the Unicode class of
      letters, digits and the underscore; this model keeps its ASCII part. */
  predicate IsWordChar(c: char) {
    ('a' <= c <= 'z') || ('A' <= c <= 'Z') || ('0' <= c <= '9') || c == '_'
  }

  predicate AllWordChars(s: string) {
    forall i :: 0 <= i < |s| ==> IsWordChar(s[i])
  }

  predicate NoWordChars(s: string) {
    forall i :: 0 <= i < |s| ==> !IsWordChar(s[i])
  }

  /** The length of the longest prefix of `s` made only of word characters. */
  function RunLength(s: string): (n: nat)
    ensures n <= |s|
    ensures AllWordChars(s[..n])
    ensures n == |s| || !IsWordChar(s[n])
  {
    if s == [] || !IsWordChar(s[0]) then 0
    else
      var m := RunLength(s[1..]);
      assert s[..1 + m] == [s[0]] + s[1..][..m];
      1 + m
  }

  /** What `re.findall(r'\w+', s)` returns: the maximal runs of word
      characters, left to right. Matching is greedy, so each match extends
      as far as word characters go. */
  function FindWords(s: string): (words: seq<string>)
    ensures forall w :: w in words ==> w != [] && AllWordChars(w)
    ensures 2 * |words| <= |s| + 1
    decreases |s|
  {
    if s == [] then []
    else if !IsWordChar(s[0]) then FindWords(s[1..])
    else
      var n := RunLength(s);
      assert n < |s| ==> s[n..][1..] == s[n + 1..];
      [s[..n]] + FindWords(s[n..])
  }

  /** `count_words(text)`, i.e. `len(re.findall(r'\w+', text))`. Two words
      are always parted by a non-word character, so a text of N characters
      holds at most (N + 1) / 2 words. */
  function CountWords(s: string): (n: nat)
    ensures n <= (|s| + 1) / 2
  {
    |FindWords(s)|
  }

  // ---------------------------------------------------------------------
  // An independent reference definition: count the positions where a run
  // of word characters begins.

  /** A run starts at `i` when `s[i]` is a word character and the character
      before it, if any, is not. */
  predicate StartsRun(s: string, i: nat)
    requires i < |s|
  {
    IsWordChar(s[i]) && (i == 0 || !IsWordChar(s[i - 1]))
  }

  /** The number of positions below `k` at which a run starts. */
  function CountStarts(s: string, k: nat): nat
    requires k <= |s|
  {
    if k == 0 then 0
    else CountStarts(s, k - 1) + (if StartsRun(s, k - 1) then 1 else 0)
  }

  function RunStarts(s: string): nat {
    CountStarts(s, |s|)
  }

  /** Two texts glue a word together when one ends and the other begins with
      a word character: the word straddles the boundary. */
  predicate Joins(x: string, y: string) {
    x != [] && y != [] && IsWordChar(x[|x| - 1]) && IsWordChar(y[0])
  }

  lemma {:induction false} CountStartsPrefix(x: string, y: string, k: nat)
    requires k <= |x|
    ensures CountStarts(x + y, k) == CountStarts(x, k)
  {
    if k > 0 {
      CountStartsPrefix(x, y, k - 1);
      assert StartsRun(x + y, k - 1) == StartsRun(x, k - 1);
    }
  }

  lemma {:induction false} CountStartsConcat(x: string, y: string, j: nat)
    requires j <= |y|
    ensures CountStarts(x + y, |x| + j)
         == CountStarts(x, |x|) + CountStarts(y, j) - (if j > 0 && Joins(x, y) then 1 else 0)
  {
    if j == 0 {
      CountStartsPrefix(x, y, |x|);
    } else {
      CountStartsConcat(x, y, j - 1);
      var s := x + y;
      assert s[|x| + j - 1] == y[j - 1];
      if j > 1 {
        assert s[|x| + j - 2] == y[j - 2];
        assert StartsRun(s, |x| + j - 1) == StartsRun(y, j - 1);
      } else if x != [] {
        assert s[|x| - 1] == x[|x| - 1];
      }
    }
  }

  /** Counting run starts over a concatenation: a word that straddles the
      boundary is counted once, not twice. */
  lemma RunStartsConcat(x: string, y: string)
    ensures RunStarts(x + y) == RunStarts(x) + RunStarts(y) - (if Joins(x, y) then 1 else 0)
  {
    CountStartsConcat(x, y, |y|);
  }

  lemma {:induction false} CountStartsOneRun(w: string, k: nat)
    requires AllWordChars(w) && 1 <= k <= |w|
    ensures CountStarts(w, k) == 1
  {
    if k > 1 {
      CountStartsOneRun(w, k - 1);
      assert !StartsRun(w, k - 1);
    }
  }

  /** A non-empty text of word characters only is one run. */
  lemma OneRun(w: string)
    requires w != [] && AllWordChars(w)
    ensures RunStarts(w) == 1
  {
    CountStartsOneRun(w, |w|);
  }

  /** `count_words` counts maximal runs: it agrees with the number of
      positions where a run of word characters begins. */
  lemma {:induction false} CountWordsIsRunStarts(s: string)
    ensures CountWords(s) == RunStarts(s)
    decreases |s|
  {
    if s == [] {
    } else if !IsWordChar(s[0]) {
      assert s == [s[0]] + s[1..];
      RunStartsConcat([s[0]], s[1..]);
      assert RunStarts([s[0]]) == 0 by {
        assert !StartsRun([s[0]], 0);
        assert CountStarts([s[0]], 1) == CountStarts([s[0]], 0);
      }
      CountWordsIsRunStarts(s[1..]);
    } else {
      var n := RunLength(s);
      assert s == s[..n] + s[n..];
      RunStartsConcat(s[..n], s[n..]);
      OneRun(s[..n]);
      assert !Joins(s[..n], s[n..]) by {
        if s[n..] != [] { assert s[n..][0] == s[n]; }
      }
      CountWordsIsRunStarts(s[n..]);
    }
  }

  /** The page-boundary property: counting the words of a concatenation
      gives the sum of the two counts, less one when a word is split
      across the boundary. */
  lemma CountWordsConcat(x: string, y: string)
    ensures CountWords(x + y) == CountWords(x) + CountWords(y) - (if Joins(x, y) then 1 else 0)
  {
    CountWordsIsRunStarts(x + y);
    CountWordsIsRunStarts(x);
    CountWordsIsRunStarts(y);
    RunStartsConcat(x, y);
  }

  /** No words exactly when there are no word characters; in particular
      the empty text has none. */
  lemma {:induction false} CountWordsZero(s: string)
    ensures CountWords(s) == 0 <==> NoWordChars(s)
    decreases |s|
  {
    if s == [] {
    } else if !IsWordChar(s[0]) {
      CountWordsZero(s[1..]);
      assert NoWordChars(s) <==> NoWordChars(s[1..]) by {
        if NoWordChars(s[1..]) {
          forall i | 0 <= i < |s| ensures !IsWordChar(s[i]) {
            if i > 0 { assert s[i] == s[1..][i - 1]; }
          }
        }
      }
    } else {
      assert !NoWordChars(s);
    }
  }

  /** A non-empty text of word characters only is exactly one word. */
  lemma OneWord(w: string)
    requires w != [] && AllWordChars(w)
    ensures CountWords(w) == 1
  {
    CountWordsIsRunStarts(w);
    OneRun(w);
  }

  // ---------------------------------------------------------------------
  // The words found are exactly the word characters of the text, in order.

  function Concat(words: seq<string>): string {
    if words == [] then [] else words[0] + Concat(words[1..])
  }

  /** The word characters of `s`, in order. */
  function WordCharsOf(s: string): string {
    if s == [] then []
    else (if IsWordChar(s[0]) then [s[0]] else []) + WordCharsOf(s[1..])
  }

  lemma {:induction false} WordCharsOfConcat(x: string, y: string)
    ensures WordCharsOf(x + y) == WordCharsOf(x) + WordCharsOf(y)
    decreases |x|
  {
    if x != [] {
      assert (x + y)[0] == x[0];
      assert (x + y)[1..] == x[1..] + y;
      WordCharsOfConcat(x[1..], y);
    } else {
      assert x + y == y;
    }
  }

  lemma {:induction false} WordCharsOfAllWord(w: string)
    requires AllWordChars(w)
    ensures WordCharsOf(w) == w
    decreases |w|
  {
    if w != [] {
      WordCharsOfAllWord(w[1..]);
    }
  }

  /** Concatenating the matches of `\w+` gives back every word character of
      the text, in order, and nothing else. */
  lemma {:induction false} FindWordsContent(s: string)
    ensures Concat(FindWords(s)) == WordCharsOf(s)
    decreases |s|
  {
    if s == [] {
    } else if !IsWordChar(s[0]) {
      FindWordsContent(s[1..]);
    } else {
      var n := RunLength(s);
      assert s == s[..n] + s[n..];
      WordCharsOfConcat(s[..n], s[n..]);
      WordCharsOfAllWord(s[..n]);
      FindWordsContent(s[n..]);
      var ws := FindWords(s);
      assert ws == [s[..n]] + FindWords(s[n..]);
      assert ws[1..] == FindWords(s[n..]);
    }
  }
}
