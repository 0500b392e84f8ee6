/** Character classes, ASCII case folding, `str.strip`, and the whole-word
    literal matching that `re.findall(r'\b' + re.escape(k) + r'\b', s)` does. */
module TextScan {

  /** `\w`, restricted to ASCII: letters, digits and the underscore. */
  predicate IsWordChar(c: char) {
    ('a' <= c <= 'z') || ('A' <= c <= 'Z') || ('0' <= c <= '9') || c == '_'
  }

  /** One character of `str.lower`, restricted to ASCII. */
  function LowerChar(c: char): char {
    if 'A' <= c <= 'Z' then (c as int - 'A' as int + 'a' as int) as char else c
  }

  /** `str.lower`, restricted to ASCII. */
  function Lower(s: string): (r: string)
    ensures |r| == |s|
    ensures forall i :: 0 <= i < |s| ==> r[i] == LowerChar(s[i])
  {
    seq(|s|, i requires 0 <= i < |s| => LowerChar(s[i]))
  }

  /** Case folding neither creates nor removes word characters, so `\b`
      falls at the same places in a text and in its lower-cased copy. */
  lemma BoundaryUnderLower(s: string, p: nat)
    requires p <= |s|
    ensures AtBoundary(Lower(s), p) == AtBoundary(s, p)
  {
  }

  /** The characters Python's `str.isspace` accepts. */
  predicate IsSpace(c: char) {
    ('\t' <= c <= '\r') || ('\U{1c}' <= c <= ' ') || c == '\U{85}' || c == '\U{a0}'
    || c == '\U{1680}' || ('\U{2000}' <= c <= '\U{200a}') || c == '\U{2028}'
    || c == '\U{2029}' || c == '\U{202f}' || c == '\U{205f}' || c == '\U{3000}'
  }

  /** Number of whitespace characters at the front of `s`. */
  function LeadingSpaces(s: string): (n: nat)
    ensures n <= |s|
    ensures forall i :: 0 <= i < n ==> IsSpace(s[i])
    ensures n == |s| || !IsSpace(s[n])
  {
    if s != [] && IsSpace(s[0]) then 1 + LeadingSpaces(s[1..]) else 0
  }

  /** Number of whitespace characters at the back of `s`. */
  function TrailingSpaces(s: string): (n: nat)
    ensures n <= |s|
    ensures forall i :: |s| - n <= i < |s| ==> IsSpace(s[i])
    ensures n == |s| || !IsSpace(s[|s| - n - 1])
  {
    if s != [] && IsSpace(s[|s| - 1]) then 1 + TrailingSpaces(s[..|s| - 1]) else 0
  }

  /** `str.strip()`: the factor of `s` left once the leading and trailing
      whitespace is gone; it is empty exactly when `s` is all whitespace. */
  function Strip(s: string): (r: string)
    ensures LeadingSpaces(s) + |r| <= |s|
    ensures r == s[LeadingSpaces(s)..LeadingSpaces(s) + |r|]
    ensures forall i :: 0 <= i < LeadingSpaces(s) ==> IsSpace(s[i])
    ensures forall i :: LeadingSpaces(s) + |r| <= i < |s| ==> IsSpace(s[i])
    ensures r != [] ==> !IsSpace(r[0]) && !IsSpace(r[|r| - 1])
    ensures r == [] <==> forall i :: 0 <= i < |s| ==> IsSpace(s[i])
  {
    var a := LeadingSpaces(s);
    var rest := s[a..];
    var r := rest[..|rest| - TrailingSpaces(rest)];
    assert forall i :: a <= i < |s| ==> s[i] == rest[i - a];
    r
  }

  /** `\b` at position `p`: exactly one of the characters on either side
      of `p` is a word character (outside the text counts as non-word). */
  predicate AtBoundary(s: string, p: nat)
    requires p <= |s|
  {
    (p > 0 && IsWordChar(s[p - 1])) != (p < |s| && IsWordChar(s[p]))
  }

  /** The pattern `\b k \b` matches `s` at position `i`. */
  predicate MatchesAt(s: string, k: string, i: nat) {
    i + |k| <= |s| && s[i..i + |k|] == k && AtBoundary(s, i) && AtBoundary(s, i + |k|)
  }

  /** Starts of the matches of `\b k \b` that a left-to-right scan from
      position `i` finds, resuming after the end of each match. */
  function MatchStartsFrom(s: string, k: string, i: nat): seq<nat>
    requires |k| > 0 && i <= |s|
    decreases |s| - i
  {
    if i + |k| > |s| then []
    else if MatchesAt(s, k, i) then [i] + MatchStartsFrom(s, k, i + |k|)
    else MatchStartsFrom(s, k, i + 1)
  }

  /** The scan reports only matches, from position `i` on, in increasing
      order and without overlap. */
  lemma {:induction false} MatchStartsFromSound(s: string, k: string, i: nat)
    requires |k| > 0 && i <= |s|
    ensures forall a :: 0 <= a < |MatchStartsFrom(s, k, i)| ==>
      i <= MatchStartsFrom(s, k, i)[a] && MatchesAt(s, k, MatchStartsFrom(s, k, i)[a])
    ensures forall a :: 0 < a < |MatchStartsFrom(s, k, i)| ==>
      MatchStartsFrom(s, k, i)[a - 1] + |k| <= MatchStartsFrom(s, k, i)[a]
    decreases |s| - i
  {
    var r := MatchStartsFrom(s, k, i);
    if i + |k| <= |s| {
      if MatchesAt(s, k, i) {
        var rest := MatchStartsFrom(s, k, i + |k|);
        MatchStartsFromSound(s, k, i + |k|);
        assert r == [i] + rest;
        forall a | 0 < a < |r| ensures i <= r[a] && MatchesAt(s, k, r[a]) && r[a - 1] + |k| <= r[a] {
          assert r[a] == rest[a - 1];
          if a > 1 {
            assert r[a - 1] == rest[a - 2];
          }
        }
      } else {
        assert r == MatchStartsFrom(s, k, i + 1);
        MatchStartsFromSound(s, k, i + 1);
      }
    }
  }

  /** Starts of the matches `re.findall` / `re.finditer` report. */
  function MatchStarts(s: string, k: string): seq<nat>
    requires |k| > 0
  {
    MatchStartsFrom(s, k, 0)
  }

  /** Every reported start is a match, and the matches follow each other
      without overlap. */
  lemma MatchStartsSound(s: string, k: string)
    requires |k| > 0
    ensures var r := MatchStarts(s, k);
      (forall a :: 0 <= a < |r| ==> MatchesAt(s, k, r[a])) &&
      (forall a :: 0 < a < |r| ==> r[a - 1] + |k| <= r[a])
  {
    assert MatchStarts(s, k) == MatchStartsFrom(s, k, 0);
    MatchStartsFromSound(s, k, 0);
  }

  /** Position `j` lies inside one of the matches of length `len` starting at `starts`. */
  predicate Covers(starts: seq<nat>, len: nat, j: nat) {
    exists a :: 0 <= a < |starts| && starts[a] <= j < starts[a] + len
  }

  /** The scan misses no match: every position where `\b k \b` matches lies
      inside a match the scan reports, starting at or before it. Together
      with the contract of MatchStartsFrom this pins the scan down to the
      leftmost, non-overlapping one. */
  lemma {:induction false} MatchStartsFromCovers(s: string, k: string, i: nat, j: nat)
    requires |k| > 0 && i <= j && MatchesAt(s, k, j)
    ensures i <= |s|
    ensures Covers(MatchStartsFrom(s, k, i), |k|, j)
    decreases |s| - i
  {
    var r := MatchStartsFrom(s, k, i);
    assert j + |k| <= |s|;
    if MatchesAt(s, k, i) {
      var rest := MatchStartsFrom(s, k, i + |k|);
      assert r == [i] + rest;
      if j < i + |k| {
        assert r[0] == i;
      } else {
        MatchStartsFromCovers(s, k, i + |k|, j);
        var a :| 0 <= a < |rest| && rest[a] <= j < rest[a] + |k|;
        assert r[a + 1] == rest[a];
      }
    } else {
      assert j != i;
      assert r == MatchStartsFrom(s, k, i + 1);
      MatchStartsFromCovers(s, k, i + 1, j);
    }
  }

  lemma MatchStartsCover(s: string, k: string, j: nat)
    requires |k| > 0 && MatchesAt(s, k, j)
    ensures Covers(MatchStarts(s, k), |k|, j)
  {
    MatchStartsFromCovers(s, k, 0, j);
    assert MatchStarts(s, k) == MatchStartsFrom(s, k, 0);
  }

  /** `re.findall(r'\b' + re.escape(k) + r'\b', s)`: the matched substrings,
      each of which is `k` itself, since the pattern is literal. */
  function FindAll(s: string, k: string): (r: seq<string>)
    requires |k| > 0
    ensures |r| == |MatchStarts(s, k)|
    ensures forall n :: 0 <= n < |r| ==> r[n] == k
  {
    var st := MatchStarts(s, k);
    MatchStartsSound(s, k);
    seq(|st|, n requires 0 <= n < |st| => s[st[n]..st[n] + |k|])
  }
}
