/** The Python `str` methods the backend relies on, over `seq<char>`. */
module PyText {

  /** `s.startswith(p)` */
  predicate StartsWith(s: string, p: string)
  {
    |p| <= |s| && s[..|p|] == p
  }

  /** `s.endswith(x)` */
  predicate EndsWith(s: string, x: string)
  {
    |x| <= |s| && s[|s| - |x|..] == x
  }

  /** `s.endswith(tuple(xs))`: true when `s` ends with one of the suffixes. */
  predicate EndsWithAny(s: string, xs: seq<string>)
  {
    exists i :: 0 <= i < |xs| && EndsWith(s, xs[i])
  }

  /** `c.lower()` on one character; only the ASCII letters are folded. */
  function LowerChar(c: char): char
  {
    if 'A' <= c <= 'Z' then (c as int + ('a' as int - 'A' as int)) as char else c
  }

  /** `s.lower()`, folding the ASCII letters. */
  function Lower(s: string): (r: string)
    ensures |r| == |s|
    ensures forall i :: 0 <= i < |s| ==> r[i] == LowerChar(s[i])
  {
    if s == [] then [] else [LowerChar(s[0])] + Lower(s[1..])
  }

  /** True when `o` occurs in `s` at position `i`. */
  predicate OccursAt(s: string, o: string, i: int)
  {
    0 <= i && i + |o| <= |s| && s[i..i + |o|] == o
  }

  /** True when no occurrence of `o` in `s` starts before position `k`. */
  predicate NoOccurrenceBefore(s: string, o: string, k: int)
  {
    forall i :: 0 <= i < k ==> !OccursAt(s, o, i)
  }

  /**
   * `s.replace(o, n)`: scanning from the left, every occurrence of `o` that does not
   * overlap an occurrence already replaced becomes `n`.
   */
  function ReplaceAll(s: string, o: string, n: string): string
    requires o != []
    decreases |s|
  {
    if |s| < |o| then s
    else if s[..|o|] == o then n + ReplaceAll(s[|o|..], o, n)
    else [s[0]] + ReplaceAll(s[1..], o, n)
  }

  /** Dropping the first character moves every position one to the left. */
  lemma NoOccurrenceShift(s: string, o: string, k: int)
    requires s != [] && NoOccurrenceBefore(s, o, k)
    ensures NoOccurrenceBefore(s[1..], o, k - 1)
  {
    forall i | 0 <= i < k - 1
      ensures !OccursAt(s[1..], o, i)
    {
      assert !OccursAt(s, o, i + 1);
      if i + |o| <= |s[1..]| {
        assert s[1..][i..i + |o|] == s[i + 1..i + 1 + |o|];
      }
    }
  }

  /** A string in which `o` does not occur is left as it is. */
  lemma {:induction false} ReplaceAbsent(s: string, o: string, n: string)
    requires o != []
    requires NoOccurrenceBefore(s, o, |s|)
    ensures ReplaceAll(s, o, n) == s
    decreases |s|
  {
    if |s| >= |o| {
      assert !OccursAt(s, o, 0);
      NoOccurrenceShift(s, o, |s|);
      ReplaceAbsent(s[1..], o, n);
    }
  }

  /** Where `o` does not occur at the start, the first character is kept and the scan moves on. */
  lemma ReplaceSkipsFirst(s: string, o: string, n: string)
    requires o != [] && |o| <= |s| && !OccursAt(s, o, 0)
    ensures ReplaceAll(s, o, n) == [s[0]] + ReplaceAll(s[1..], o, n)
  {
    assert s[0..|o|] == s[..|o|];
  }

  /**
   * The leftmost occurrence of `o` is the first one replaced: what precedes it is kept,
   * and the scan resumes right after it.
   */
  lemma {:induction false} ReplaceLeftmost(s: string, o: string, n: string, k: nat)
    requires o != []
    requires OccursAt(s, o, k) && NoOccurrenceBefore(s, o, k)
    ensures ReplaceAll(s, o, n) == s[..k] + n + ReplaceAll(s[k + |o|..], o, n)
    decreases k
  {
    if k == 0 {
      ReplaceAtStart(s, o, n);
    } else {
      ShiftOccurrence(s, o, k);
      ReplaceLeftmost(s[1..], o, n, k - 1);
      ReplaceLeftmostStep(s, o, n, k);
    }
  }

  /** An occurrence after the start, with none before it, is one position earlier once the first character is dropped. */
  lemma ShiftOccurrence(s: string, o: string, k: nat)
    requires 0 < k && OccursAt(s, o, k) && NoOccurrenceBefore(s, o, k)
    ensures |o| <= |s| && !OccursAt(s, o, 0)
    ensures OccursAt(s[1..], o, k - 1) && NoOccurrenceBefore(s[1..], o, k - 1)
  {
    assert !OccursAt(s, o, 0);
    assert s[1..][k - 1..k - 1 + |o|] == s[k..k + |o|];
    NoOccurrenceShift(s, o, k);
  }

  /** An occurrence at the start is replaced first. */
  lemma ReplaceAtStart(s: string, o: string, n: string)
    requires o != [] && OccursAt(s, o, 0)
    ensures ReplaceAll(s, o, n) == s[..0] + n + ReplaceAll(s[0 + |o|..], o, n)
  {
    assert s[..|o|] == o;
    assert s[..0] + n == n;
  }

  /** The inductive step of `ReplaceLeftmost`, from the same fact about `s` without its first character. */
  lemma ReplaceLeftmostStep(s: string, o: string, n: string, k: nat)
    requires o != [] && 0 < k && k + |o| <= |s| && !OccursAt(s, o, 0)
    requires ReplaceAll(s[1..], o, n) == s[1..][..k - 1] + n + ReplaceAll(s[1..][k - 1 + |o|..], o, n)
    ensures ReplaceAll(s, o, n) == s[..k] + n + ReplaceAll(s[k + |o|..], o, n)
  {
    ReplaceSkipsFirst(s, o, n);
    assert s[1..][k - 1 + |o|..] == s[k + |o|..];
    PrependPrefix(s, n, ReplaceAll(s[k + |o|..], o, n), k);
  }

  /** The sequence arithmetic that closes the inductive step of `ReplaceLeftmost`. */
  lemma PrependPrefix(s: string, n: string, rest: string, k: nat)
    requires 0 < k <= |s|
    ensures [s[0]] + (s[1..][..k - 1] + n + rest) == s[..k] + n + rest
  {
    assert [s[0]] + s[1..][..k - 1] == s[..k];
  }

  /** Replacing one character by a different one leaves no occurrence of the first. */
  lemma {:induction false} ReplaceCharRemovesIt(s: string, c: char, d: char)
    requires c != d
    ensures c !in ReplaceAll(s, [c], [d])
    ensures |ReplaceAll(s, [c], [d])| == |s|
    decreases |s|
  {
    if s != [] {
      ReplaceCharRemovesIt(s[1..], c, d);
    }
  }

  /** A character that is not in `s` does not occur in it as a one-character string. */
  lemma CharAbsent(s: string, c: char)
    requires c !in s
    ensures NoOccurrenceBefore(s, [c], |s|)
  {
    forall i | 0 <= i < |s|
      ensures !OccursAt(s, [c], i)
    {
      assert s[i..i + 1] == [s[i]];
    }
  }

  /** Replacing one character leaves a prefix that does not contain it untouched. */
  lemma {:induction false} ReplaceCharKeepsPrefix(p: string, q: string, c: char, d: char)
    requires c !in p
    ensures ReplaceAll(p + q, [c], [d]) == p + ReplaceAll(q, [c], [d])
    decreases |p|
  {
    if p != [] {
      assert (p + q)[1..] == p[1..] + q;
      assert p[0] in p;
      ReplaceCharKeepsPrefix(p[1..], q, c, d);
    } else {
      assert p + q == q;
    }
  }

  /** `s.split(sep)[0]`: the text before the first `sep`, or all of `s` when there is none. */
  function BeforeFirst(s: string, sep: char): (r: string)
    ensures |r| <= |s| && r == s[..|r|]
    ensures sep !in r
    ensures |r| < |s| ==> s[|r|] == sep
  {
    if s == [] then []
    else if s[0] == sep then []
    else [s[0]] + BeforeFirst(s[1..], sep)
  }
}
