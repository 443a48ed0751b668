/**
 * Character and string operations that the skill matcher and the provider
 * adapters rely on: ASCII lower-casing, regex word characters and the `\b`
 * word boundary, substring search, and `" ".join` with its inverse `split(" ")`.
 */
module Text {
  import opened Wrappers

  predicate IsUpper(c: char) {
    'A' <= c <= 'Z'
  }

  /** A character matched by the regex class `\w`, narrowed to ASCII. */
  predicate IsWordChar(c: char) {
    'a' <= c <= 'z' || 'A' <= c <= 'Z' || '0' <= c <= '9' || c == '_'
  }

  /** `str.lower` on one character, narrowed to ASCII. */
  function LowerChar(c: char): (d: char)
    ensures !IsUpper(d)
    ensures IsWordChar(d) == IsWordChar(c)
    ensures !IsUpper(c) ==> d == c
    ensures IsUpper(c) ==> d as int - 'a' as int == c as int - 'A' as int
  {
    if IsUpper(c) then (c as int - 'A' as int + 'a' as int) as char else c
  }

  /** `str.lower`: lower-cases every character and keeps the length. */
  function Lower(s: string): (r: string)
  {
    seq(|s|, i requires 0 <= i < |s| => LowerChar(s[i]))
  }

  lemma LowerIdempotent(s: string)
    ensures Lower(Lower(s)) == Lower(s)
  {
    assert forall i :: 0 <= i < |s| ==> Lower(Lower(s))[i] == Lower(s)[i];
  }

  lemma LowerConcat(a: string, b: string)
    ensures Lower(a + b) == Lower(a) + Lower(b)
  {
    assert forall i :: 0 <= i < |a + b| ==> Lower(a + b)[i] == (Lower(a) + Lower(b))[i];
  }

  /** `p` occurs in `t` starting at index `i`. */
  predicate OccursAt(t: string, p: string, i: nat) {
    i + |p| <= |t| && t[i..i + |p|] == p
  }

  /** `p` occurs somewhere in `t`. */
  ghost predicate Occurs(p: string, t: string) {
    exists i: nat :: OccursAt(t, p, i)
  }

  /** No `a` in `t` is directly followed by `b`: the two-character string `[a, b]` does not occur in `t`. */
  predicate PairFree(t: string, a: char, b: char) {
    forall i :: 0 <= i < |t| - 1 ==> !(t[i] == a && t[i + 1] == b)
  }

  /** A pair absent from both halves and from their junction is absent from the concatenation. */
  lemma PairFreeConcat(x: string, y: string, a: char, b: char)
    requires PairFree(x, a, b) && PairFree(y, a, b)
    requires x == [] || y == [] || !(x[|x| - 1] == a && y[0] == b)
    ensures PairFree(x + y, a, b)
  {
    forall i | 0 <= i < |x + y| - 1 ensures !((x + y)[i] == a && (x + y)[i + 1] == b) {
      if i + 1 < |x| {
        assert (x + y)[i] == x[i] && (x + y)[i + 1] == x[i + 1];
      } else if i >= |x| {
        assert (x + y)[i] == y[i - |x|] && (x + y)[i + 1] == y[i + 1 - |x|];
      }
    }
  }

  /** The character just before position `i` of `t` is a word character. */
  predicate WordBefore(t: string, i: nat) {
    0 < i <= |t| && IsWordChar(t[i - 1])
  }

  /** The character at position `i` of `t` is a word character. */
  predicate WordAt(t: string, i: nat) {
    i < |t| && IsWordChar(t[i])
  }

  /** The regex assertion `\b` holds at position `i`: exactly one side of it is a word character. */
  predicate Boundary(t: string, i: nat) {
    WordBefore(t, i) != WordAt(t, i)
  }

  /**
   * `p` matches at `i`: as a plain substring, or, when `wholeWord` holds,
   * as the regex `\b p \b` with `p` taken literally (what `re.escape` gives).
   */
  predicate MatchAt(t: string, p: string, i: nat, wholeWord: bool) {
    OccursAt(t, p, i) && (wholeWord ==> Boundary(t, i) && Boundary(t, i + |p|))
  }

  /** The leftmost match of `p` in `t` at or after `start`, as `re.search` (or `in`) scans for it. */
  function Find(t: string, p: string, start: nat, wholeWord: bool): (r: Option<nat>)
    decreases |t| + 1 - start
    ensures r.Some? ==> start <= r.value && MatchAt(t, p, r.value, wholeWord)
    ensures r.Some? ==> forall k: nat :: start <= k < r.value ==> !MatchAt(t, p, k, wholeWord)
    ensures r.None? ==> forall k: nat :: start <= k ==> !MatchAt(t, p, k, wholeWord)
  {
    if start + |p| > |t| then None
    else if MatchAt(t, p, start, wholeWord) then Some(start)
    else Find(t, p, start + 1, wholeWord)
  }

  /** A search from the start finds a match exactly when one exists. */
  lemma FindFound(t: string, p: string, wholeWord: bool)
    ensures Find(t, p, 0, wholeWord).Some? <==> exists i: nat :: MatchAt(t, p, i, wholeWord)
  {
    var r := Find(t, p, 0, wholeWord);
    if r.Some? {
      assert MatchAt(t, p, r.value, wholeWord);
    }
  }

  /**
   * `p` occurs at `i` as a whole word: at the start of the text or after a
   * non-word character, and ending at the end of the text or before a
   * non-word character.
   */
  predicate WholeWordAt(t: string, p: string, i: nat) {
    OccursAt(t, p, i)
    && (i == 0 || !IsWordChar(t[i - 1]))
    && (i + |p| == |t| || !IsWordChar(t[i + |p|]))
  }

  /** For a pattern that begins and ends with a word character, `\b p \b` matches at `i` exactly when `p` is a whole word there. */
  lemma WholeWordMatch(t: string, p: string, i: nat)
    requires |p| > 0 && IsWordChar(p[0]) && IsWordChar(p[|p| - 1])
    ensures MatchAt(t, p, i, true) <==> WholeWordAt(t, p, i)
  {
    if OccursAt(t, p, i) {
      assert t[i] == t[i..i + |p|][0];
      assert t[i + |p| - 1] == t[i..i + |p|][|p| - 1];
    }
  }

  /** For such a pattern, the regex search succeeds exactly when `p` occurs somewhere as a whole word. */
  lemma FindWholeWord(t: string, p: string)
    requires |p| > 0 && IsWordChar(p[0]) && IsWordChar(p[|p| - 1])
    ensures Find(t, p, 0, true).Some? <==> exists i: nat :: WholeWordAt(t, p, i)
  {
    FindFound(t, p, true);
    forall i: nat ensures MatchAt(t, p, i, true) <==> WholeWordAt(t, p, i) {
      WholeWordMatch(t, p, i);
    }
  }

  /** Python's `" ".join(words)`. */
  function Join(words: seq<string>): (r: string)
  {
    if |words| == 0 then ""
    else if |words| == 1 then words[0]
    else words[0] + " " + Join(words[1..])
  }

  /** Python's `s.split(" ")`: the pieces between single spaces, at least one. */
  function Split(s: string): (r: seq<string>)
    ensures |r| >= 1
  {
    if s == [] then [""]
    else if s[0] == ' ' then [""] + Split(s[1..])
    else
      var rest := Split(s[1..]);
      [[s[0]] + rest[0]] + rest[1..]
  }

  lemma {:induction false} SplitWord(w: string)
    requires ' ' !in w
    ensures Split(w) == [w]
  {
    if w != [] {
      assert ' ' !in w[1..] by {
        forall k | 0 <= k < |w[1..]| ensures w[1..][k] != ' ' {
          assert w[1..][k] == w[k + 1];
        }
      }
      SplitWord(w[1..]);
      assert [w[0]] + w[1..] == w;
    }
  }

  lemma {:induction false} SplitAfterWord(w: string, rest: string)
    requires ' ' !in w
    ensures Split(w + " " + rest) == [w] + Split(rest)
  {
    var s := w + " " + rest;
    if w == [] {
      assert s == " " + rest;
      assert s[1..] == rest;
    } else {
      assert ' ' !in w[1..] by {
        forall k | 0 <= k < |w[1..]| ensures w[1..][k] != ' ' {
          assert w[1..][k] == w[k + 1];
        }
      }
      assert s[0] == w[0];
      assert s[1..] == w[1..] + " " + rest;
      SplitAfterWord(w[1..], rest);
      assert [w[0]] + w[1..] == w;
    }
  }

  /** Splitting on spaces undoes joining with spaces, when no word holds a space. */
  lemma {:induction false} SplitJoin(words: seq<string>)
    requires |words| > 0
    requires forall k :: 0 <= k < |words| ==> ' ' !in words[k]
    ensures Split(Join(words)) == words
  {
    if |words| == 1 {
      SplitWord(words[0]);
    } else {
      SplitJoin(words[1..]);
      SplitAfterWord(words[0], Join(words[1..]));
      assert [words[0]] + words[1..] == words;
    }
  }
}
