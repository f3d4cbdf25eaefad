/**
  The few `java.lang.String` operations the core relies on, as functions on
  `seq<char>`.
 */
module JavaStrings {

  /** `s.contains(t)`: `t` occurs in `s` as a contiguous block. */
  predicate Contains(s: string, t: string)
    decreases |s|
  {
    |t| <= |s| && (s[..|t|] == t || (s != [] && Contains(s[1..], t)))
  }

  /** `s.endsWith(c)` for a one-character suffix. */
  predicate EndsWith(s: string, c: char)
  {
    |s| > 0 && s[|s| - 1] == c
  }

  /**
    `s.replace(target, replacement)`: every occurrence of `target`, found by a
    left-to-right scan that never revisits replaced text, is replaced.
   */
  function Replace(s: string, target: string, replacement: string): string
    requires target != ""
    decreases |s|
  {
    if |s| < |target| then s
    else if s[..|target|] == target then replacement + Replace(s[|target|..], target, replacement)
    else [s[0]] + Replace(s[1..], target, replacement)
  }

  /** `Character.toUpperCase` restricted to ASCII letters. */
  function UpperChar(c: char): char
  {
    if 'a' <= c <= 'z' then (c as int - 'a' as int + 'A' as int) as char else c
  }

  /** `s.toUpperCase()` for ASCII text. */
  function ToUpperCase(s: string): (r: string)
    ensures |r| == |s|
    ensures forall i :: 0 <= i < |s| ==> r[i] == UpperChar(s[i])
  {
    seq(|s|, i requires 0 <= i < |s| => UpperChar(s[i]))
  }

  /** `t` occurs in `s` starting at position `i`. */
  predicate OccursAt(s: string, t: string, i: nat)
  {
    i + |t| <= |s| && s[i..i + |t|] == t
  }

  /** A string that lacks some character of `t` does not contain `t`. */
  lemma {:induction false} MissingCharNotContained(s: string, t: string, j: nat)
    requires j < |t| && t[j] !in s
    ensures !Contains(s, t)
  {
    if |t| <= |s| {
      assert s[..|t|][j] == s[j];
      MissingCharNotContained(s[1..], t, j);
    }
  }

  /** Occurrences in `s[1..]` are the occurrences in `s` one position further on. */
  lemma OccursAtTail(s: string, t: string, i: nat)
    requires s != ""
    ensures OccursAt(s[1..], t, i) <==> OccursAt(s, t, i + 1)
  {
    if i + 1 + |t| <= |s| {
      assert s[1..][i..i + |t|] == s[i + 1..i + 1 + |t|];
    }
  }

  /**
    Replacing in `a + target + b`, when no occurrence of `target` starts inside
    `a`, keeps `a`, replaces that occurrence and goes on in `b`.
   */
  lemma {:induction false} ReplaceAfter(a: string, b: string, target: string, replacement: string)
    requires target != ""
    requires forall i :: 0 <= i < |a| ==> !OccursAt(a + target + b, target, i)
    ensures Replace(a + target + b, target, replacement) == a + replacement + Replace(b, target, replacement)
  {
    var s := a + target + b;
    if a == [] {
      assert s == target + b;
      assert s[..|target|] == target && s[|target|..] == b;
    } else {
      var a' := a[1..];
      var tail := a' + target + b;
      assert s[1..] == tail;
      assert s[..|target|] != target by {
        assert !OccursAt(s, target, 0);
      }
      assert Replace(s, target, replacement) == [s[0]] + Replace(tail, target, replacement);
      forall i | 0 <= i < |a'| ensures !OccursAt(tail, target, i) {
        OccursAtTail(s, target, i);
      }
      ReplaceAfter(a', b, target, replacement);
      assert [s[0]] + a' == a;
    }
  }

  /** Replacing a target that does not occur leaves the string as it was. */
  lemma {:induction false} ReplaceAbsent(s: string, target: string, replacement: string)
    requires target != "" && !Contains(s, target)
    ensures Replace(s, target, replacement) == s
  {
    if |s| >= |target| {
      ReplaceAbsent(s[1..], target, replacement);
      assert s == [s[0]] + s[1..];
    }
  }

  /**
    Deleting a target never lengthens a string, and deletes at least one
    character when the target occurs.
   */
  lemma {:induction false} ReplaceByEmptyShrinks(s: string, target: string)
    requires target != ""
    ensures |Replace(s, target, "")| <= |s|
    ensures Contains(s, target) ==> |Replace(s, target, "")| < |s|
  {
    if |s| >= |target| {
      if s[..|target|] == target {
        ReplaceByEmptyShrinks(s[|target|..], target);
      } else {
        ReplaceByEmptyShrinks(s[1..], target);
      }
    }
  }

  /** Upper-casing an upper-cased string changes nothing. */
  lemma ToUpperCaseIdempotent(s: string)
    ensures ToUpperCase(ToUpperCase(s)) == ToUpperCase(s)
  {
  }
}
