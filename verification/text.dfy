/**
 * String helpers shared by the engine: ASCII lowercasing and substring search.
 *
 * `Contains` is the executable search (the `includes` of the engine); `Occurs`
 * is its specification, an explicit position at which the pattern starts.
 */
module Text {

  /** ASCII lowercasing of one character; every other character is unchanged. */
  function Lower(c: char): (r: char)
    ensures 'A' <= c <= 'Z' ==> r as int == c as int + 32
    ensures !('A' <= c <= 'Z') ==> r == c
    ensures !('A' <= r <= 'Z')
  {
    if 'A' <= c <= 'Z' then (c as int + 32) as char else c
  }

  function ToLower(s: string): (r: string)
    ensures |r| == |s|
    ensures forall i :: 0 <= i < |s| ==> r[i] == Lower(s[i])
  {
    seq(|s|, i requires 0 <= i < |s| => Lower(s[i]))
  }

  /** `pat` starts at position `i` of `s`. */
  predicate OccursAt(s: string, pat: string, i: int)
  {
    0 <= i && i + |pat| <= |s| && s[i..i + |pat|] == pat
  }

  /** `pat` is a substring of `s`. */
  ghost predicate Occurs(s: string, pat: string)
  {
    exists i :: OccursAt(s, pat, i)
  }

  /** Substring search, scanning the start positions of `s` from left to right. */
  function Contains(s: string, pat: string): (r: bool)
    ensures r <==> Occurs(s, pat)
    decreases |s|
  {
    if |pat| > |s| then
      false
    else if s[..|pat|] == pat then
      assert OccursAt(s, pat, 0);
      true
    else
      var rest := Contains(s[1..], pat);
      assert forall j :: OccursAt(s[1..], pat, j) ==> OccursAt(s, pat, j + 1) by {
        forall j | OccursAt(s[1..], pat, j) ensures OccursAt(s, pat, j + 1) {
          assert s[j + 1..j + 1 + |pat|] == s[1..][j..j + |pat|];
        }
      }
      assert forall j :: OccursAt(s, pat, j) ==> OccursAt(s[1..], pat, j - 1) by {
        forall j | OccursAt(s, pat, j) ensures OccursAt(s[1..], pat, j - 1) {
          assert j != 0;
          assert s[1..][j - 1..j - 1 + |pat|] == s[j..j + |pat|];
        }
      }
      rest
  }

  /** Some pattern of `pats` is a substring of `s`. */
  function ContainsAny(s: string, pats: seq<string>): (r: bool)
    ensures r <==> exists k :: 0 <= k < |pats| && Occurs(s, pats[k])
  {
    if |pats| == 0 then false
    else
      var rest := ContainsAny(s, pats[1..]);
      assert forall k :: 1 <= k < |pats| ==> pats[1..][k - 1] == pats[k];
      Contains(s, pats[0]) || rest
  }

  // Lemmas used to establish occurrences in concrete texts.

  lemma ToLowerAppend(a: string, b: string)
    ensures ToLower(a + b) == ToLower(a) + ToLower(b)
  {
    assert forall i :: 0 <= i < |a + b| ==> ToLower(a + b)[i] == (ToLower(a) + ToLower(b))[i];
  }

  lemma ToLowerIdempotent(s: string)
    ensures ToLower(ToLower(s)) == ToLower(s)
  {
  }

  lemma OccursSelf(pat: string)
    ensures Occurs(pat, pat)
  {
    assert OccursAt(pat, pat, 0);
  }

  lemma OccursInLeft(a: string, b: string, pat: string)
    requires Occurs(a, pat)
    ensures Occurs(a + b, pat)
  {
    var i :| OccursAt(a, pat, i);
    assert (a + b)[i..i + |pat|] == a[i..i + |pat|];
    assert OccursAt(a + b, pat, i);
  }

  lemma OccursInRight(a: string, b: string, pat: string)
    requires Occurs(b, pat)
    ensures Occurs(a + b, pat)
  {
    var i :| OccursAt(b, pat, i);
    assert (a + b)[|a| + i..|a| + i + |pat|] == b[i..i + |pat|];
    assert OccursAt(a + b, pat, |a| + i);
  }

  /** A pattern holding a character that `s` lacks does not occur in `s`. */
  lemma NotOccursWithoutChar(s: string, pat: string, c: char)
    requires c in pat && c !in s
    ensures !Occurs(s, pat)
  {
    var k :| 0 <= k < |pat| && pat[k] == c;
    forall i | 0 <= i && i + |pat| <= |s|
      ensures !OccursAt(s, pat, i)
    {
      assert s[i..i + |pat|][k] == s[i + k] != c;
    }
  }

  /**
   * A pattern without the separator occurs in `a + [sep] + b` only inside `a`
   * or inside `b`, so it is absent when it is absent from both words.
   */
  lemma NotOccursAcrossSeparator(a: string, sep: char, b: string, pat: string)
    requires sep !in pat
    requires !Occurs(a, pat) && !Occurs(b, pat)
    ensures !Occurs(a + [sep] + b, pat)
  {
    var s := a + [sep] + b;
    forall i | 0 <= i && i + |pat| <= |s|
      ensures !OccursAt(s, pat, i)
    {
      if i + |pat| <= |a| {
        assert s[i..i + |pat|] == a[i..i + |pat|];
        assert !OccursAt(a, pat, i);
      } else if i > |a| {
        assert s[i..i + |pat|] == b[i - |a| - 1..i - |a| - 1 + |pat|];
        assert !OccursAt(b, pat, i - |a| - 1);
      } else {
        assert s[i..i + |pat|][|a| - i] == sep;
      }
    }
  }

  /** A pattern longer than the text does not occur in it. */
  lemma NotOccursLonger(s: string, pat: string)
    requires |pat| > |s|
    ensures !Occurs(s, pat)
  {
  }

  /** Lowercasing keeps every character, lowered. */
  lemma LowerKeepsChar(s: string, c: char)
    requires c in s
    ensures Lower(c) in ToLower(s)
  {
    var i :| 0 <= i < |s| && s[i] == c;
    assert ToLower(s)[i] == Lower(c);
  }

  /** An occurrence inside an occurrence is an occurrence. */
  lemma OccursTransitive(s: string, mid: string, pat: string)
    requires Occurs(s, mid) && Occurs(mid, pat)
    ensures Occurs(s, pat)
  {
    var i :| OccursAt(s, mid, i);
    var j :| OccursAt(mid, pat, j);
    forall t | 0 <= t < |pat|
      ensures s[i + j + t] == pat[t]
    {
      assert mid[j..j + |pat|][t] == pat[t];
      assert s[i..i + |mid|][j + t] == mid[j + t];
    }
    assert s[i + j..i + j + |pat|] == pat;
    assert OccursAt(s, pat, i + j);
  }

  /** Lowercasing keeps every occurrence, lowered. */
  lemma LowerKeepsOccurrence(s: string, pat: string)
    requires Occurs(s, pat)
    ensures Occurs(ToLower(s), ToLower(pat))
  {
    var i :| OccursAt(s, pat, i);
    assert ToLower(s)[i..i + |pat|] == ToLower(pat);
    assert OccursAt(ToLower(s), ToLower(pat), i);
  }
}
