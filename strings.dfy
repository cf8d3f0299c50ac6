/**
  The String helpers of MetaverseCompetition/Extension/String.swift, on top of a
  model of Foundation's literal `replacingOccurrences(of:with:)`.
*/
module Strings {

  predicate StartsWith(s: string, prefix: string) {
    |prefix| <= |s| && s[..|prefix|] == prefix
  }

  predicate HasSuffix(s: string, suffix: string) {
    |suffix| <= |s| && s[|s| - |suffix|..] == suffix
  }

  /** Every string followed by `suffix` ends in `suffix`. */
  lemma JoinHasSuffix(suffix: string)
    ensures forall stem :: HasSuffix(stem + suffix, suffix)
  {
    forall stem ensures HasSuffix(stem + suffix, suffix) {
      assert (stem + suffix)[|stem|..] == suffix;
    }
  }

  /** `pattern` starts at index `i` of `s`. */
  predicate OccursAt(s: string, pattern: string, i: nat) {
    i + |pattern| <= |s| && s[i..i + |pattern|] == pattern
  }

  /** `pattern` occurs somewhere inside `s`. */
  ghost predicate Occurs(s: string, pattern: string) {
    exists i: nat :: OccursAt(s, pattern, i)
  }

  /**
    Literal `replacingOccurrences(of: pattern, with: replacement)`: scanning left to
    right, every non-overlapping occurrence of `pattern` is replaced; an empty
    pattern matches nowhere.
  */
  function ReplacingOccurrences(s: string, pattern: string, replacement: string): (r: string)
    ensures |pattern| == 0 ==> r == s
    ensures pattern == replacement ==> r == s
    ensures |replacement| == |pattern| ==> |r| == |s|
    ensures |replacement| <= |pattern| ==> |r| <= |s|
    decreases |s|
  {
    if |pattern| == 0 || |s| == 0 then s
    else if StartsWith(s, pattern) then replacement + ReplacingOccurrences(s[|pattern|..], pattern, replacement)
    else [s[0]] + ReplacingOccurrences(s[1..], pattern, replacement)
  }

  /** `String.replace(string:replacement:)`. */
  function Replace(s: string, target: string, replacement: string): (r: string)
    ensures |target| == 0 ==> r == s
    ensures target == replacement ==> r == s
    ensures |replacement| == |target| ==> |r| == |s|
    ensures |replacement| <= |target| ==> |r| <= |s|
  {
    ReplacingOccurrences(s, target, replacement)
  }

  /** A pattern that does not occur leaves the string as it was. */
  lemma {:induction false} ReplaceAbsentPattern(s: string, target: string, replacement: string)
    requires !Occurs(s, target)
    ensures Replace(s, target, replacement) == s
    decreases |s|
  {
    if |target| == 0 || |s| == 0 {
    } else {
      assert !OccursAt(s, target, 0);
      assert !Occurs(s[1..], target) by {
        if Occurs(s[1..], target) {
          var i: nat :| OccursAt(s[1..], target, i);
          assert s[i + 1..i + 1 + |target|] == s[1..][i..i + |target|];
          assert OccursAt(s, target, i + 1);
          assert false;
        }
      }
      ReplaceAbsentPattern(s[1..], target, replacement);
    }
  }

  /** Reference definition: `s` with every ' ' dropped and nothing else touched. */
  function WithoutSpaces(s: string): string {
    if |s| == 0 then []
    else (if s[0] == ' ' then [] else [s[0]]) + WithoutSpaces(s[1..])
  }

  /** Number of ' ' characters in `s`. */
  function SpaceCount(s: string): nat {
    if |s| == 0 then 0 else (if s[0] == ' ' then 1 else 0) + SpaceCount(s[1..])
  }

  /** `String.removeWhitespace()`: replaces " " by "". */
  function RemoveWhitespace(s: string): (r: string)
    ensures r == WithoutSpaces(s)
  {
    RemoveWhitespaceDropsSpaces(s);
    Replace(s, " ", "")
  }

  lemma {:induction false} RemoveWhitespaceDropsSpaces(s: string)
    ensures Replace(s, " ", "") == WithoutSpaces(s)
    decreases |s|
  {
    if |s| > 0 {
      assert StartsWith(s, " ") <==> s[0] == ' ';
      RemoveWhitespaceDropsSpaces(s[1..]);
    }
  }

  /** No space survives. */
  lemma {:induction false} NoSpaceLeft(s: string)
    ensures ' ' !in RemoveWhitespace(s)
    decreases |s|
  {
    if |s| > 0 {
      NoSpaceLeft(s[1..]);
    }
  }

  /** Every other character, tabs and newlines included, keeps its number of occurrences. */
  lemma {:induction false} OtherCharactersKept(s: string, c: char)
    requires c != ' '
    ensures multiset(RemoveWhitespace(s))[c] == multiset(s)[c]
    decreases |s|
  {
    if |s| > 0 {
      OtherCharactersKept(s[1..], c);
      assert s == [s[0]] + s[1..];
    }
  }

  /** The output is the input with exactly its spaces removed. */
  lemma {:induction false} RemoveWhitespaceLength(s: string)
    ensures |RemoveWhitespace(s)| == |s| - SpaceCount(s)
    decreases |s|
  {
    if |s| > 0 {
      RemoveWhitespaceLength(s[1..]);
    }
  }

  /** A string without spaces is returned unchanged. */
  lemma {:induction false} RemoveWhitespaceKeepsSpaceFree(s: string)
    requires ' ' !in s
    ensures RemoveWhitespace(s) == s
    decreases |s|
  {
    if |s| > 0 {
      assert ' ' !in s[1..];
      RemoveWhitespaceKeepsSpaceFree(s[1..]);
    }
  }

  lemma RemoveWhitespaceIdempotent(s: string)
    ensures RemoveWhitespace(RemoveWhitespace(s)) == RemoveWhitespace(s)
  {
    NoSpaceLeft(s);
    RemoveWhitespaceKeepsSpaceFree(RemoveWhitespace(s));
  }

  /**
    The longest prefix of `s` free of `c`: `s.prefix(while: { $0 != c })`, which is
    also `s.prefix(upTo: s.firstIndex(of: c))` when `c` occurs.
  */
  function PrefixBefore(s: string, c: char): (r: string)
    ensures r <= s && c !in r
    ensures |r| < |s| ==> s[|r|] == c
    ensures c !in s ==> r == s
  {
    if |s| == 0 || s[0] == c then "" else [s[0]] + PrefixBefore(s[1..], c)
  }

  /** Decoding a name built as `word + sep + tail` gives back the word when it is free of `sep`. */
  lemma PrefixBeforeOfJoin(word: string, c: char, tail: string)
    requires c !in word
    ensures PrefixBefore(word + [c] + tail, c) == word
  {
    var s := word + [c] + tail;
    var r := PrefixBefore(s, c);
    assert s[|word|] == c;
    assert |r| == |word|;
  }
}
