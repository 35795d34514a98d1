/** The whitespace-insensitive comparison performed by
    `assert_attribute_implementation_as_expected!` (src/lib.rs). The host's
    notion of a whitespace character (`char::is_whitespace`, the Unicode
    White_Space property) is the parameter `isWhitespace`. */
module Whitespace {

  /** `remove_whitespace`: `s.chars().filter(|c| !c.is_whitespace()).collect()`. */
  function RemoveWhitespace(s: string, isWhitespace: char -> bool): (r: string)
    ensures |r| <= |s|
    ensures forall i :: 0 <= i < |r| ==> !isWhitespace(r[i])
    decreases |s|
  {
    if s == [] then []
    else if isWhitespace(s[0]) then RemoveWhitespace(s[1..], isWhitespace)
    else [s[0]] + RemoveWhitespace(s[1..], isWhitespace)
  }

  /** The comparison `assert_eq!(remove_whitespace(left), remove_whitespace(right))`. */
  predicate EqualIgnoringWhitespace(left: string, right: string, isWhitespace: char -> bool): (r: bool)
    ensures left == right ==> r
  {
    RemoveWhitespace(left, isWhitespace) == RemoveWhitespace(right, isWhitespace)
  }

  ghost predicate AllWhitespace(w: string, isWhitespace: char -> bool) {
    forall i :: 0 <= i < |w| ==> isWhitespace(w[i])
  }

  ghost predicate NoWhitespace(s: string, isWhitespace: char -> bool) {
    forall i :: 0 <= i < |s| ==> !isWhitespace(s[i])
  }

  /** `r` is `s` with some of its characters dropped, the rest in order. */
  ghost predicate IsSubsequence(r: string, s: string)
    decreases |s|
  {
    if r == [] then true
    else if s == [] then false
    else if r[0] == s[0] then IsSubsequence(r[1..], s[1..])
    else IsSubsequence(r, s[1..])
  }

  /** Removing whitespace works piecewise: on a concatenation it is the
      concatenation of the stripped parts. */
  lemma {:induction false} RemoveWhitespaceAppend(a: string, b: string, isWhitespace: char -> bool)
    ensures RemoveWhitespace(a + b, isWhitespace)
         == RemoveWhitespace(a, isWhitespace) + RemoveWhitespace(b, isWhitespace)
    decreases |a|
  {
    if a != [] {
      assert (a + b)[1..] == a[1..] + b;
      RemoveWhitespaceAppend(a[1..], b, isWhitespace);
    } else {
      assert a + b == b;
    }
  }

  /** A string with no whitespace is left as it is. */
  lemma {:induction false} RemoveWhitespaceOfClean(s: string, isWhitespace: char -> bool)
    requires NoWhitespace(s, isWhitespace)
    ensures RemoveWhitespace(s, isWhitespace) == s
    decreases |s|
  {
    if s != [] {
      RemoveWhitespaceOfClean(s[1..], isWhitespace);
    }
  }

  /** A string of whitespace only is removed entirely. */
  lemma {:induction false} RemoveWhitespaceOfBlank(w: string, isWhitespace: char -> bool)
    requires AllWhitespace(w, isWhitespace)
    ensures RemoveWhitespace(w, isWhitespace) == []
    decreases |w|
  {
    if w != [] {
      RemoveWhitespaceOfBlank(w[1..], isWhitespace);
    }
  }

  /** Removing whitespace twice is removing it once. */
  lemma RemoveWhitespaceIdempotent(s: string, isWhitespace: char -> bool)
    ensures RemoveWhitespace(RemoveWhitespace(s, isWhitespace), isWhitespace)
         == RemoveWhitespace(s, isWhitespace)
  {
  }

  /** The result keeps the input's characters in their original order ... */
  lemma {:induction false} RemoveWhitespaceIsSubsequence(s: string, isWhitespace: char -> bool)
    ensures IsSubsequence(RemoveWhitespace(s, isWhitespace), s)
    decreases |s|
  {
    if s != [] {
      RemoveWhitespaceIsSubsequence(s[1..], isWhitespace);
      var r := RemoveWhitespace(s, isWhitespace);
      if isWhitespace(s[0]) {
        SubsequenceOfTail(r, s);
      } else {
        assert r[1..] == RemoveWhitespace(s[1..], isWhitespace);
      }
    }
  }

  lemma {:induction false} SubsequenceOfTail(r: string, s: string)
    requires s != [] && IsSubsequence(r, s[1..])
    ensures IsSubsequence(r, s)
    decreases |r| + |s|
  {
    if r != [] && r[0] == s[0] {
      // Dropping r[0] keeps r a subsequence of s[1..].
      SubsequenceDropFirst(r, s[1..]);
    }
  }

  lemma {:induction false} SubsequenceDropFirst(r: string, s: string)
    requires r != [] && IsSubsequence(r, s)
    ensures IsSubsequence(r[1..], s)
    decreases |r| + |s|
  {
    assert s != [];
    if r[0] == s[0] {
      if r[1..] != [] {
        SubsequenceDropFirst(r[1..], s[1..]);
        SubsequenceOfTail(r[1..], s);
      }
    } else {
      SubsequenceDropFirst(r, s[1..]);
      if r[1..] != [] {
        SubsequenceOfTail(r[1..], s);
      }
    }
  }

  /** ... and every non-whitespace character exactly as often as the input,
      every whitespace character not at all. */
  lemma {:induction false} RemoveWhitespaceCounts(s: string, c: char, isWhitespace: char -> bool)
    ensures multiset(RemoveWhitespace(s, isWhitespace))[c]
         == if isWhitespace(c) then 0 else multiset(s)[c]
    decreases |s|
  {
    if s != [] {
      RemoveWhitespaceCounts(s[1..], c, isWhitespace);
      assert s == [s[0]] + s[1..];
    }
  }

  /** Inserting or deleting a run of whitespace does not change the stripped
      string. */
  lemma RemoveWhitespaceIgnoresInsertion(a: string, w: string, b: string, isWhitespace: char -> bool)
    requires AllWhitespace(w, isWhitespace)
    ensures RemoveWhitespace(a + w + b, isWhitespace) == RemoveWhitespace(a + b, isWhitespace)
  {
    RemoveWhitespaceAppend(a + w, b, isWhitespace);
    RemoveWhitespaceAppend(a, w, isWhitespace);
    RemoveWhitespaceAppend(a, b, isWhitespace);
    RemoveWhitespaceOfBlank(w, isWhitespace);
  }

  /** The comparison is an equivalence: reflexive, symmetric, transitive. */
  lemma EqualIgnoringWhitespaceIsEquivalence(a: string, b: string, c: string, isWhitespace: char -> bool)
    ensures EqualIgnoringWhitespace(a, a, isWhitespace)
    ensures EqualIgnoringWhitespace(a, b, isWhitespace) == EqualIgnoringWhitespace(b, a, isWhitespace)
    ensures EqualIgnoringWhitespace(a, b, isWhitespace) && EqualIgnoringWhitespace(b, c, isWhitespace)
            ==> EqualIgnoringWhitespace(a, c, isWhitespace)
  {
  }

  /** Whitespace inserted into either side does not change the verdict. */
  lemma EqualIgnoringWhitespaceUnderInsertion(
    a: string, w: string, b: string, other: string, isWhitespace: char -> bool)
    requires AllWhitespace(w, isWhitespace)
    ensures EqualIgnoringWhitespace(a + w + b, other, isWhitespace)
        == EqualIgnoringWhitespace(a + b, other, isWhitespace)
    ensures EqualIgnoringWhitespace(other, a + w + b, isWhitespace)
        == EqualIgnoringWhitespace(other, a + b, isWhitespace)
  {
    RemoveWhitespaceIgnoresInsertion(a, w, b, isWhitespace);
  }

  /** The comparison is equality of normal forms: a string compares equal to
      its own stripped form, and two strings without whitespace compare equal
      only when they are identical. */
  lemma EqualIgnoringWhitespaceIsNormalisedEquality(a: string, b: string, isWhitespace: char -> bool)
    ensures EqualIgnoringWhitespace(a, RemoveWhitespace(a, isWhitespace), isWhitespace)
    ensures NoWhitespace(a, isWhitespace) && NoWhitespace(b, isWhitespace)
            ==> (EqualIgnoringWhitespace(a, b, isWhitespace) <==> a == b)
  {
    if NoWhitespace(a, isWhitespace) && NoWhitespace(b, isWhitespace) {
      RemoveWhitespaceOfClean(a, isWhitespace);
      RemoveWhitespaceOfClean(b, isWhitespace);
    }
  }
}
