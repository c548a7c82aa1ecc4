/** ASCII character classes, case maps and substring search over strings. */
module Text {

  predicate IsUpper(c: char) { 'A' <= c <= 'Z' }

  predicate IsLower(c: char) { 'a' <= c <= 'z' }

  predicate IsDigit(c: char) { '0' <= c <= '9' }

  /** The regular-expression class `\w`, which is `[A-Za-z0-9_]` for a pattern without the `u` flag. */
  predicate IsWordChar(c: char) { IsUpper(c) || IsLower(c) || IsDigit(c) || c == '_' }

  /** Upper-cases an ASCII lower-case letter and leaves every other character alone. */
  function UpperChar(c: char): char {
    if IsLower(c) then (c as int - 32) as char else c
  }

  /** Lower-cases an ASCII upper-case letter and leaves every other character alone. */
  function LowerChar(c: char): char {
    if IsUpper(c) then (c as int + 32) as char else c
  }

  /** `String.prototype.toUpperCase` restricted to ASCII letters. */
  function ToUpper(s: string): (r: string)
    ensures |r| == |s|
  {
    if s == [] then [] else [UpperChar(s[0])] + ToUpper(s[1..])
  }

  /** `String.prototype.toLowerCase` restricted to ASCII letters. */
  function ToLower(s: string): (r: string)
    ensures |r| == |s|
  {
    if s == [] then [] else [LowerChar(s[0])] + ToLower(s[1..])
  }

  /** The case maps work character by character. */
  lemma {:induction false} CaseMapsAt(s: string, i: nat)
    requires i < |s|
    ensures ToUpper(s)[i] == UpperChar(s[i])
    ensures ToLower(s)[i] == LowerChar(s[i])
    decreases i
  {
    if i > 0 {
      CaseMapsAt(s[1..], i - 1);
    }
  }

  /** Upper-casing after either case map is the same as upper-casing once. */
  lemma {:induction false} UpperAbsorbsCaseMaps(s: string)
    ensures ToUpper(ToUpper(s)) == ToUpper(s)
    ensures ToUpper(ToLower(s)) == ToUpper(s)
  {
    if s != [] {
      UpperAbsorbsCaseMaps(s[1..]);
      assert ToUpper(s)[1..] == ToUpper(s[1..]);
      assert ToLower(s)[1..] == ToLower(s[1..]);
    }
  }

  /** Lower-casing after either case map is the same as lower-casing once. */
  lemma {:induction false} LowerAbsorbsCaseMaps(s: string)
    ensures ToLower(ToLower(s)) == ToLower(s)
    ensures ToLower(ToUpper(s)) == ToLower(s)
  {
    if s != [] {
      LowerAbsorbsCaseMaps(s[1..]);
      assert ToUpper(s)[1..] == ToUpper(s[1..]);
      assert ToLower(s)[1..] == ToLower(s[1..]);
    }
  }

  /** A string of upper-case letters is its own upper-case form. */
  lemma {:induction false} UpperFixesUpper(s: string)
    requires forall i :: 0 <= i < |s| ==> IsUpper(s[i])
    ensures ToUpper(s) == s
  {
    if s != [] {
      UpperFixesUpper(s[1..]);
      assert s == [s[0]] + s[1..];
    }
  }

  /** `w` occurs in `s` starting at index `i`. */
  predicate OccursAt(s: string, w: string, i: nat) {
    i + |w| <= |s| && s[i..i + |w|] == w
  }

  /** `s.includes(w)`: a left-to-right search for `w` at every index of `s`. */
  predicate Contains(s: string, w: string)
    decreases |s|
  {
    (|w| <= |s| && s[..|w|] == w) || (0 < |s| && Contains(s[1..], w))
  }

  /** A copy of `w` found by the search starts at some index of `s`. */
  lemma {:induction false} ContainsHasOccurrence(s: string, w: string)
    requires Contains(s, w)
    ensures exists i: nat :: OccursAt(s, w, i)
    decreases |s|
  {
    if |w| <= |s| && s[..|w|] == w {
      assert OccursAt(s, w, 0);
    } else {
      ContainsHasOccurrence(s[1..], w);
      var i: nat :| OccursAt(s[1..], w, i);
      assert s[1..][i..i + |w|] == s[i + 1..i + 1 + |w|];
      assert OccursAt(s, w, i + 1);
    }
  }

  /** The search finds a copy of `w` wherever one starts. */
  lemma {:induction false} OccurrenceIsFound(s: string, w: string, i: nat)
    requires OccursAt(s, w, i)
    ensures Contains(s, w)
    decreases i
  {
    if i == 0 {
      assert s[..|w|] == s[0..0 + |w|];
    } else {
      assert s[1..][i - 1..i - 1 + |w|] == s[i..i + |w|];
      OccurrenceIsFound(s[1..], w, i - 1);
    }
  }

  /** The search agrees with the definition of a substring: some index of `s` starts a copy of `w`. */
  lemma ContainsIffOccurs(s: string, w: string)
    ensures Contains(s, w) <==> exists i: nat :: OccursAt(s, w, i)
  {
    if Contains(s, w) {
      ContainsHasOccurrence(s, w);
    }
    if i: nat :| OccursAt(s, w, i) {
      OccurrenceIsFound(s, w, i);
    }
  }
}
