/**
 * The string operations the bot relies on: Python's `sub in s`,
 * `str.lower()` (restricted to ASCII letters) and `" ".join(parts)`.
 */
module Text {

  /** `sub` occurs in `s` starting at index `i`. */
  predicate OccursAt(s: string, sub: string, i: nat)
  {
    i + |sub| <= |s| && s[i..i + |sub|] == sub
  }

  /** Python's `sub in s`: the empty string occurs in every string. */
  predicate ContainsSubstring(s: string, sub: string)
    decreases |s|
  {
    |sub| <= |s| && (s[..|sub|] == sub || (0 < |s| && ContainsSubstring(s[1..], sub)))
  }

  /** The scan above agrees with the positional definition of an occurrence. */
  lemma {:induction false} ContainsSubstringIff(s: string, sub: string)
    ensures ContainsSubstring(s, sub) <==> exists i: nat :: OccursAt(s, sub, i)
    decreases |s|
  {
    if |sub| > |s| {
      forall i: nat ensures !OccursAt(s, sub, i) { }
    } else if s[..|sub|] == sub {
      assert OccursAt(s, sub, 0);
    } else {
      var t := s[1..];
      ContainsSubstringIff(t, sub);
      if ContainsSubstring(s, sub) {
        var j: nat :| OccursAt(t, sub, j);
        assert s[j + 1..j + 1 + |sub|] == t[j..j + |sub|];
        assert OccursAt(s, sub, j + 1);
      } else {
        forall i: nat | OccursAt(s, sub, i) ensures false {
          assert i != 0;
          assert t[i - 1..i - 1 + |sub|] == s[i..i + |sub|];
          assert OccursAt(t, sub, i - 1);
        }
      }
    }
  }

  /** A non-empty string whose first character never appears in `s` does not occur in it. */
  lemma AbsentWithoutFirstChar(s: string, sub: string)
    requires |sub| > 0 && sub[0] !in s
    ensures !ContainsSubstring(s, sub)
  {
  }

  /** Lower-case one ASCII letter; every other character is left as it is. */
  function LowerChar(c: char): char
  {
    if 'A' <= c <= 'Z' then (c as int - 'A' as int + 'a' as int) as char else c
  }

  /** `s.lower()` for ASCII text. */
  function Lower(s: string): (r: string)
    ensures |r| == |s|
  {
    if s == [] then [] else [LowerChar(s[0])] + Lower(s[1..])
  }

  /** Lower-casing works character by character, so it distributes over `+`. */
  lemma {:induction false} LowerAppend(a: string, b: string)
    ensures Lower(a + b) == Lower(a) + Lower(b)
  {
    if a != [] {
      assert (a + b)[0] == a[0];
      assert (a + b)[1..] == a[1..] + b;
      LowerAppend(a[1..], b);
    } else {
      assert a + b == b;
    }
  }

  /** A word inside a string occurs, lower-cased, at the same place in the lower-cased string. */
  lemma OccursAfterLower(pre: string, word: string, post: string)
    ensures OccursAt(Lower(pre + word + post), Lower(word), |pre|)
  {
    LowerAppend(pre + word, post);
    LowerAppend(pre, word);
    OccursInMiddle(Lower(pre), Lower(word), Lower(post));
  }

  /** The middle part of a concatenation occurs right after the first part. */
  lemma OccursInMiddle(a: string, b: string, c: string)
    ensures OccursAt(a + b + c, b, |a|)
  {
    assert (a + b + c)[|a|..|a| + |b|] == b;
  }

  /** `" ".join(parts)`. */
  function JoinWithSpace(parts: seq<string>): string
  {
    if |parts| == 0 then ""
    else if |parts| == 1 then parts[0]
    else parts[0] + " " + JoinWithSpace(parts[1..])
  }
}
