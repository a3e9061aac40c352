/**
 * The two string queries of .NET the launcher relies on, `String.Contains`
 * and `String.EndsWith`, over `seq<char>` (ordinal comparison).
 */
module Text {

  /** `s.Contains(sub)`: `sub` occurs in `s` at some position. */
  predicate Contains(s: string, sub: string) {
    exists i | 0 <= i <= |s| - |sub| :: OccursAt(s, sub, i)
  }

  /** `sub` sits in `s` starting at position `i`. */
  predicate OccursAt(s: string, sub: string, i: int) {
    0 <= i <= |s| - |sub| && s[i..i + |sub|] == sub
  }

  /** `s.EndsWith(suffix)`. */
  predicate EndsWith(s: string, suffix: string) {
    |suffix| <= |s| && s[|s| - |suffix|..] == suffix
  }

  /** `string.IsNullOrEmpty` for a non-null string. */
  predicate IsEmpty(s: string) {
    |s| == 0
  }

  /** No position of `s` holds `a` immediately followed by `b`. */
  predicate NoPair(s: string, a: char, b: char) {
    forall i :: 0 <= i < |s| - 1 ==> !(s[i] == a && s[i + 1] == b)
  }

  /** Witness form of `Contains`: `sub` sits at position `i`. */
  lemma ContainsAt(s: string, sub: string, i: nat)
    requires i + |sub| <= |s| && s[i..i + |sub|] == sub
    ensures Contains(s, sub)
  {
    assert OccursAt(s, sub, i);
  }

  /** A one-character needle occurs iff that character is in the string. */
  lemma {:induction false} ContainsChar(s: string, c: char)
    ensures Contains(s, [c]) <==> c in s
  {
    if c in s {
      var i :| 0 <= i < |s| && s[i] == c;
      assert OccursAt(s, [c], i);
    }
    if Contains(s, [c]) {
      var i :| 0 <= i <= |s| - |[c]| && OccursAt(s, [c], i);
      assert s[i] == s[i..i + 1][0] == c;
    }
  }

  /** No character of `s` is in `bad`. */
  predicate Avoids(s: string, bad: set<char>) {
    forall i :: 0 <= i < |s| ==> s[i] !in bad
  }

  /** An occurrence of `sub` carries each of its characters with it. */
  lemma AbsentByChar(s: string, bad: set<char>, sub: string, k: nat)
    requires Avoids(s, bad) && k < |sub| && sub[k] in bad
    ensures !Contains(s, sub)
  {
    forall i | 0 <= i <= |s| - |sub| ensures !OccursAt(s, sub, i) {
      assert s[i..i + |sub|][k] == s[i + k];
    }
  }

  /**
   * An occurrence of `sub` carries every adjacent pair of `sub` with it, so a
   * string without the pair `sub[k], sub[k+1]` cannot contain `sub`.
   */
  lemma {:induction false} AbsentByPair(s: string, sub: string, k: nat)
    requires k + 1 < |sub|
    requires NoPair(s, sub[k], sub[k + 1])
    ensures !Contains(s, sub)
  {
    forall i | 0 <= i <= |s| - |sub| ensures !OccursAt(s, sub, i) {
      assert !(s[i + k] == sub[k] && s[i + k + 1] == sub[k + 1]);
      assert s[i..i + |sub|][k] == s[i + k];
    }
  }

  /**
   * Joining two strings where a space stands at the joint: a needle without
   * a space occurs in the whole iff it occurs in one of the parts.
   */
  lemma {:induction false} ContainsJoin(a: string, b: string, sub: string)
    requires (|a| > 0 && a[|a| - 1] == ' ') || (|b| > 0 && b[0] == ' ')
    requires ' ' !in sub
    ensures Contains(a + b, sub) <==> Contains(a, sub) || Contains(b, sub)
  {
    var w := a + b;
    if !(Contains(a, sub) || Contains(b, sub)) {
      forall i | 0 <= i <= |w| - |sub| ensures !OccursAt(w, sub, i) {
        if i + |sub| <= |a| {
          assert w[i..i + |sub|] == a[i..i + |sub|];
          assert !OccursAt(a, sub, i);
        } else if |a| <= i {
          var j := i - |a|;
          assert w[i..i + |sub|] == b[j..j + |sub|];
          assert !OccursAt(b, sub, j);
        } else if |a| > 0 && a[|a| - 1] == ' ' {
          assert w[i..i + |sub|][|a| - 1 - i] == ' ';
        } else {
          assert w[i..i + |sub|][|a| - i] == ' ';
        }
      }
    }
    if Contains(a, sub) {
      var i :| 0 <= i <= |a| - |sub| && OccursAt(a, sub, i);
      assert w[i..i + |sub|] == a[i..i + |sub|];
      assert OccursAt(w, sub, i);
    }
    if Contains(b, sub) {
      var i :| 0 <= i <= |b| - |sub| && OccursAt(b, sub, i);
      assert w[|a| + i..|a| + i + |sub|] == b[i..i + |sub|];
      assert OccursAt(w, sub, |a| + i);
    }
  }

  /**
   * `s.Replace(pattern, replacement)` (ordinal): scanning left to right,
   * every occurrence of `pattern` that does not overlap an earlier replaced
   * one is replaced.
   */
  function ReplaceAll(s: string, pattern: string, replacement: string): string
    requires |pattern| > 0
    decreases |s|
  {
    if |s| < |pattern| then s
    else if s[..|pattern|] == pattern then replacement + ReplaceAll(s[|pattern|..], pattern, replacement)
    else [s[0]] + ReplaceAll(s[1..], pattern, replacement)
  }

  /** A string without the pattern comes back unchanged. */
  lemma {:induction false} ReplaceAllAbsent(s: string, pattern: string, replacement: string)
    requires |pattern| > 0 && !Contains(s, pattern)
    ensures ReplaceAll(s, pattern, replacement) == s
    decreases |s|
  {
    if |s| >= |pattern| {
      assert !OccursAt(s, pattern, 0);
      forall i | 0 <= i <= |s[1..]| - |pattern| ensures !OccursAt(s[1..], pattern, i) {
        assert !OccursAt(s, pattern, i + 1);
        assert s[1..][i..i + |pattern|] == s[i + 1..i + 1 + |pattern|];
      }
      ReplaceAllAbsent(s[1..], pattern, replacement);
      assert [s[0]] + s[1..] == s;
    }
  }

  /** Replacing by a string of the same length keeps the length. */
  lemma {:induction false} ReplaceAllLength(s: string, pattern: string, replacement: string)
    requires |pattern| > 0 && |replacement| == |pattern|
    ensures |ReplaceAll(s, pattern, replacement)| == |s|
    decreases |s|
  {
    if |s| >= |pattern| {
      if s[..|pattern|] == pattern {
        ReplaceAllLength(s[|pattern|..], pattern, replacement);
      } else {
        ReplaceAllLength(s[1..], pattern, replacement);
      }
    }
  }
}
