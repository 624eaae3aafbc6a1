/**
 * The string operations the agent relies on: Python's `str.split()` with no
 * argument, `' '.join(...)` and the case folding used to recognise the
 * `Bearer` scheme.
 *
 * `Split` is characterised completely: a string splits into `words` exactly
 * when it can be written as `gaps[0] + words[0] + gaps[1] + ... + gaps[n]`
 * with whitespace-only gaps, the inner ones non-empty (SplitCharacterization).
 */
module Text {

  /** The characters Python's `str.isspace()` accepts; `str.split()` separates on runs of them. */
  predicate IsSpace(c: char) {
    if c <= ' ' then
      c == ' ' || ('\t' <= c <= '\r') || ('\U{1c}' <= c <= '\U{1f}')
    else
      && '\U{85}' <= c
      && (|| c == '\U{85}' || c == '\U{a0}' || c == '\U{1680}'
          || ('\U{2000}' <= c <= '\U{200a}')
          || c == '\U{2028}' || c == '\U{2029}' || c == '\U{202f}' || c == '\U{205f}' || c == '\U{3000}')
  }

  predicate AllSpace(s: string) {
    forall i :: 0 <= i < |s| ==> IsSpace(s[i])
  }

  predicate NoSpace(s: string) {
    forall i :: 0 <= i < |s| ==> !IsSpace(s[i])
  }

  /** A piece `str.split()` can produce: non-empty, without whitespace. */
  predicate IsWord(s: string) {
    s != [] && NoSpace(s)
  }

  predicate AllWords(words: seq<string>) {
    forall i :: 0 <= i < |words| ==> IsWord(words[i])
  }

  /** Length of the longest whitespace-free prefix of `s`. */
  function WordLength(s: string): (n: nat)
    ensures n <= |s| && NoSpace(s[..n])
    ensures n < |s| ==> IsSpace(s[n])
  {
    if s == [] || IsSpace(s[0]) then 0
    else
      var m := WordLength(s[1..]);
      assert s[..1 + m] == [s[0]] + s[1..][..m];
      1 + m
  }

  /** Python's `s.split()`: the maximal whitespace-free runs of `s`, in order. */
  function Split(s: string): (words: seq<string>)
    ensures AllWords(words)
    decreases |s|
  {
    if s == [] then []
    else if IsSpace(s[0]) then Split(s[1..])
    else
      var n := WordLength(s);
      [s[..n]] + Split(s[n..])
  }

  /** Python's `' '.join(words)`. */
  function Join(words: seq<string>): string {
    if words == [] then ""
    else if |words| == 1 then words[0]
    else words[0] + " " + Join(words[1..])
  }

  /** `gaps[0] + words[0] + gaps[1] + ... + words[n-1] + gaps[n]`. */
  function Interleave(gaps: seq<string>, words: seq<string>): string
    requires |gaps| == |words| + 1
  {
    if words == [] then gaps[0]
    else gaps[0] + words[0] + Interleave(gaps[1..], words[1..])
  }

  /** `gaps` can separate `n` words: all whitespace, and non-empty between two words. */
  predicate Separates(gaps: seq<string>, n: nat) {
    && |gaps| == n + 1
    && (forall i :: 0 <= i < |gaps| ==> AllSpace(gaps[i]))
    && (forall i :: 0 < i < n ==> gaps[i] != [])
  }

  /** Python's `str.lower()` restricted to ASCII letters; other characters are kept. */
  function LowerChar(c: char): char {
    if 'A' <= c <= 'Z' then (c as int + 32) as char else c
  }

  function Lower(s: string): string {
    seq(|s|, i requires 0 <= i < |s| => LowerChar(s[i]))
  }

  /** Leading whitespace does not change the split. */
  lemma {:induction false} SplitSkipsSpace(w: string, s: string)
    requires AllSpace(w)
    ensures Split(w + s) == Split(s)
    decreases |w|
  {
    if w != [] {
      assert (w + s)[0] == w[0];
      assert (w + s)[1..] == w[1..] + s;
      assert Split(w + s) == Split(w[1..] + s);
      SplitSkipsSpace(w[1..], s);
    } else {
      assert w + s == s;
    }
  }

  /** A whitespace-free prefix followed by whitespace (or nothing) is one whole word. */
  lemma {:induction false} WordLengthOfWord(t: string, rest: string)
    requires NoSpace(t)
    requires rest == [] || IsSpace(rest[0])
    ensures WordLength(t + rest) == |t|
  {
    if t == [] {
      assert t + rest == rest;
    } else {
      assert (t + rest)[0] == t[0];
      assert (t + rest)[1..] == t[1..] + rest;
      WordLengthOfWord(t[1..], rest);
    }
  }

  lemma AllWordsAppend(a: seq<string>, b: seq<string>)
    requires AllWords(a) && AllWords(b)
    ensures AllWords(a + b)
  {
    forall i | 0 <= i < |a + b| ensures IsWord((a + b)[i]) {
      if i < |a| {
        assert (a + b)[i] == a[i];
      } else {
        assert (a + b)[i] == b[i - |a|];
      }
    }
  }

  /** A word followed by whitespace (or nothing) is split off as the first piece. */
  lemma SplitWordThen(t: string, rest: string)
    requires IsWord(t) && (rest == [] || IsSpace(rest[0]))
    ensures Split(t + rest) == [t] + Split(rest)
  {
    WordLengthOfWord(t, rest);
    var s := t + rest;
    assert s[0] == t[0];
    assert s[..|t|] == t;
    assert s[|t|..] == rest;
  }

  /** A single word splits into itself. */
  lemma SplitWord(w: string)
    requires IsWord(w)
    ensures Split(w) == [w]
  {
    SplitWordThen(w, []);
    assert w + [] == w;
  }

  /** Two words with a whitespace gap between them. */
  lemma SplitTwo(a: string, gap: string, b: string)
    requires IsWord(a) && IsWord(b) && gap != [] && AllSpace(gap)
    ensures Split(a + gap + b) == [a, b]
  {
    assert a + gap + b == a + (gap + b);
    assert (gap + b)[0] == gap[0];
    SplitWordThen(a, gap + b);
    SplitSkipsSpace(gap, b);
    SplitWord(b);
  }

  /** Three words separated by single spaces. */
  lemma SplitThree(a: string, b: string, c: string)
    requires IsWord(a) && IsWord(b) && IsWord(c)
    ensures Split(a + (" " + (b + (" " + c)))) == [a, b, c]
  {
    assert AllSpace(" ");
    SplitWord(c);
    SplitSkipsSpace(" ", c);
    SplitWordThen(b, " " + c);
    SplitSkipsSpace(" ", b + (" " + c));
    SplitWordThen(a, " " + (b + (" " + c)));
  }

  /** Dropping the first gap and word keeps the gaps valid for the remaining words. */
  lemma SeparatesTail(gaps: seq<string>, n: nat)
    requires Separates(gaps, n) && n > 0
    ensures Separates(gaps[1..], n - 1)
  {
    forall i | 0 < i < n - 1 ensures gaps[1..][i] != [] {
      assert gaps[1..][i] == gaps[i + 1];
    }
  }

  /** What follows the first word of interleaved text is empty or starts with whitespace. */
  lemma InterleaveAfterFirst(gaps: seq<string>, words: seq<string>)
    requires Separates(gaps, |words|) && AllWords(words) && words != []
    ensures var rest := Interleave(gaps[1..], words[1..]); rest == [] || IsSpace(rest[0])
  {
    assert AllSpace(gaps[1]);
    if |words| > 1 {
      assert gaps[1] != [] && IsWord(words[1]);
      InterleaveFirst(gaps[1..], words[1..]);
    } else {
      assert Interleave(gaps[1..], words[1..]) == gaps[1];
    }
  }

  /** One direction of the characterisation: interleaving words with valid gaps splits back into the words. */
  lemma {:induction false} SplitInterleave(gaps: seq<string>, words: seq<string>)
    requires Separates(gaps, |words|) && AllWords(words)
    ensures Split(Interleave(gaps, words)) == words
  {
    assert AllSpace(gaps[0]);
    if words == [] {
      assert gaps[0] + [] == gaps[0];
      SplitSkipsSpace(gaps[0], []);
    } else {
      var t := words[0];
      var rest := Interleave(gaps[1..], words[1..]);
      assert Interleave(gaps, words) == gaps[0] + (t + rest);
      SplitSkipsSpace(gaps[0], t + rest);
      assert IsWord(t);
      InterleaveAfterFirst(gaps, words);
      SplitWordThen(t, rest);
      SeparatesTail(gaps, |words|);
      SplitInterleave(gaps[1..], words[1..]);
    }
  }

  /** The other direction: the gaps around the words of `Split(s)`, which rebuild `s`. */
  function Gaps(s: string): (gaps: seq<string>)
    ensures Separates(gaps, |Split(s)|)
    ensures Interleave(gaps, Split(s)) == s
    decreases |s|
  {
    if s == [] then [[]]
    else if IsSpace(s[0]) then
      var g := Gaps(s[1..]);
      var gaps := [[s[0]] + g[0]] + g[1..];
      GapsSpaceStep(s, g, gaps);
      gaps
    else
      var n := WordLength(s);
      var g := Gaps(s[n..]);
      var gaps := [[]] + g;
      GapsWordStep(s, n, g, gaps);
      gaps
  }

  lemma GapsSpaceStep(s: string, g: seq<string>, gaps: seq<string>)
    requires s != [] && IsSpace(s[0])
    requires Separates(g, |Split(s[1..])|) && Interleave(g, Split(s[1..])) == s[1..]
    requires gaps == [[s[0]] + g[0]] + g[1..]
    ensures Separates(gaps, |Split(s)|) && Interleave(gaps, Split(s)) == s
  {
    var words := Split(s);
    assert words == Split(s[1..]);
    assert AllSpace([s[0]] + g[0]) by {
      assert AllSpace(g[0]);
    }
    assert gaps[1..] == g[1..];
    if words == [] {
      assert [s[0]] + s[1..] == s;
    } else {
      assert s[1..] == g[0] + words[0] + Interleave(g[1..], words[1..]);
      assert Interleave(gaps, words) == ([s[0]] + g[0]) + words[0] + Interleave(g[1..], words[1..]);
      assert [s[0]] + s[1..] == s;
    }
  }

  lemma GapsWordStep(s: string, n: nat, g: seq<string>, gaps: seq<string>)
    requires s != [] && !IsSpace(s[0]) && n == WordLength(s)
    requires Separates(g, |Split(s[n..])|) && Interleave(g, Split(s[n..])) == s[n..]
    requires gaps == [[]] + g
    ensures Separates(gaps, |Split(s)|) && Interleave(gaps, Split(s)) == s
  {
    var more := Split(s[n..]);
    var words := [s[..n]] + more;
    assert Split(s) == words;
    assert Interleave(gaps, words) == s by {
      assert words[1..] == more && gaps[1..] == g;
      assert Interleave(gaps, words) == [] + s[..n] + Interleave(g, more);
      assert s[..n] + s[n..] == s;
    }
    if more != [] {
      // The text after the first word starts with whitespace, so the first
      // gap of the rest cannot be empty.
      InterleaveFirst(g, more);
    }
    forall i | 0 < i < |words| ensures gaps[i] != [] {
      assert gaps[i] == g[i - 1];
    }
  }

  /** The first character of interleaved text: that of the first gap, or of the first word when that gap is empty. */
  lemma InterleaveFirst(g: seq<string>, more: seq<string>)
    requires more != [] && IsWord(more[0]) && |g| == |more| + 1
    ensures Interleave(g, more) != []
    ensures Interleave(g, more)[0] == if g[0] == [] then more[0][0] else g[0][0]
  {
    assert Interleave(g, more) == g[0] + (more[0] + Interleave(g[1..], more[1..]));
  }

  /** `Split(s) == words` exactly when `s` is `words` separated by valid gaps. */
  lemma SplitCharacterization(s: string, words: seq<string>)
    ensures Split(s) == words <==>
      AllWords(words) && exists gaps :: Separates(gaps, |words|) && Interleave(gaps, words) == s
  {
    if Split(s) == words {
      var gaps := Gaps(s);
      assert Separates(gaps, |words|) && Interleave(gaps, words) == s;
    }
    if AllWords(words) && exists gaps :: Separates(gaps, |words|) && Interleave(gaps, words) == s {
      var gaps :| Separates(gaps, |words|) && Interleave(gaps, words) == s;
      SplitInterleave(gaps, words);
    }
  }

  /** `' '.join` followed by `split()` gives back the words, when every word is a split word. */
  lemma {:induction false} SplitJoin(words: seq<string>)
    requires AllWords(words)
    ensures Split(Join(words)) == words
  {
    if words == [] {
    } else if |words| == 1 {
      SplitWord(words[0]);
    } else {
      var t := words[0];
      var rest := Join(words[1..]);
      assert IsWord(t);
      assert Join(words) == t + (" " + rest);
      SplitWordThen(t, " " + rest);
      assert AllSpace(" ");
      SplitSkipsSpace(" ", rest);
      SplitJoin(words[1..]);
    }
  }

  /** A string lower-cases to "bearer" exactly when each letter is that of "bearer" in either case. */
  lemma LowerIsBearer(s: string)
    ensures Lower(s) == "bearer" <==>
      |s| == 6 && forall i :: 0 <= i < 6 ==> s[i] == "bearer"[i] || s[i] == "BEARER"[i]
  {
    if Lower(s) == "bearer" {
      forall i | 0 <= i < 6 ensures s[i] == "bearer"[i] || s[i] == "BEARER"[i] {
        assert LowerChar(s[i]) == "bearer"[i];
      }
    }
    if |s| == 6 && forall i :: 0 <= i < 6 ==> s[i] == "bearer"[i] || s[i] == "BEARER"[i] {
      assert Lower(s) == "bearer";
    }
  }
}
