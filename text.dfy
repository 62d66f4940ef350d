/** Optional values: a TypeScript field or prop that may be `undefined`. */
module Optional {
  datatype Option<+T> = None | Some(value: T)
}

/** Drag displacements, which are JavaScript numbers, as reals. */
module Reals {
  /** `Math.abs`. */
  function Abs(x: real): (r: real)
    ensures r >= 0.0 && (r == x || r == -x)
  {
    if x < 0.0 then -x else x
  }
}

/**
 * Upper-casing of key labels, as done by JavaScript's `String.prototype.toUpperCase`
 * on the characters the keyboard uses (ASCII letters, digits, space).
 */
module Text {
  predicate IsLower(c: char) {
    'a' <= c <= 'z'
  }

  /** The upper-case form of one character: a..z move to A..Z, everything else stays. */
  function UpperChar(c: char): (u: char)
    ensures !IsLower(u)
  {
    if IsLower(c) then (c as int - 'a' as int + 'A' as int) as char else c
  }

  /** No character of `s` is a lower-case letter. */
  predicate IsUpperCase(s: string) {
    forall i :: 0 <= i < |s| ==> !IsLower(s[i])
  }

  /** `s.toUpperCase()`: same length, no lower-case letter left, every other character kept. */
  function ToUpper(s: string): (r: string)
    ensures |r| == |s| && IsUpperCase(r)
    ensures forall i :: 0 <= i < |s| && !IsLower(s[i]) ==> r[i] == s[i]
    ensures forall i :: 0 <= i < |s| && IsLower(s[i]) ==> r[i] as int == s[i] as int - 32
  {
    seq(|s|, i requires 0 <= i < |s| => UpperChar(s[i]))
  }

  /** A string that is already upper case comes back unchanged. */
  lemma UpperCaseIsFixed(s: string)
    requires IsUpperCase(s)
    ensures ToUpper(s) == s
  {
    assert forall i :: 0 <= i < |s| ==> ToUpper(s)[i] == s[i];
  }

  /** Upper-casing twice is upper-casing once. */
  lemma ToUpperIdempotent(s: string)
    ensures ToUpper(ToUpper(s)) == ToUpper(s)
  {
    UpperCaseIsFixed(ToUpper(s));
  }

  predicate IsCapital(c: char) {
    'A' <= c <= 'Z'
  }

  /** The 26 capital letters, in order. */
  const Alphabet: string := seq(26, i requires 0 <= i < 26 => ('A' as int + i) as char)

  /** A string has no more distinct characters than it has characters. */
  lemma {:induction false} DistinctCharsAtMostLength(s: string)
    ensures |(set c | c in s)| <= |s|
  {
    if s != [] {
      DistinctCharsAtMostLength(s[1..]);
      assert (set c | c in s) == {s[0]} + (set c | c in s[1..]);
    }
  }

  /** A string with as many distinct characters as characters repeats none. */
  lemma {:induction false} NoRepeatWhenAllDistinct(s: string)
    requires |(set c | c in s)| == |s|
    ensures forall i, j :: 0 <= i < j < |s| ==> s[i] != s[j]
  {
    if s != [] {
      var rest := set c | c in s[1..];
      assert (set c | c in s) == {s[0]} + rest;
      DistinctCharsAtMostLength(s[1..]);
      assert s[0] !in rest;
      NoRepeatWhenAllDistinct(s[1..]);
      forall i, j | 0 <= i < j < |s| ensures s[i] != s[j] {
        if i == 0 {
          assert s[j] == s[1..][j - 1];
        } else {
          assert s[i] == s[1..][i - 1] && s[j] == s[1..][j - 1];
        }
      }
    }
  }

  /** A strictly increasing string has as many distinct characters as characters. */
  lemma {:induction false} IncreasingCharsAreDistinct(s: string)
    requires forall i, j :: 0 <= i < j < |s| ==> s[i] < s[j]
    ensures |(set c | c in s)| == |s|
  {
    if s != [] {
      IncreasingCharsAreDistinct(s[1..]);
      assert (set c | c in s) == {s[0]} + (set c | c in s[1..]);
      assert s[0] !in s[1..];
    }
  }

  /** The alphabet holds exactly the capital letters, 26 distinct ones. */
  lemma AlphabetIsTheCapitals()
    ensures |(set c | c in Alphabet)| == 26
    ensures forall c :: c in Alphabet <==> IsCapital(c)
  {
    IncreasingCharsAreDistinct(Alphabet);
    forall c | IsCapital(c) ensures c in Alphabet {
      assert Alphabet[c as int - 'A' as int] == c;
    }
  }
}
