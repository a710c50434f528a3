/** The two operations of Go's `strings` package the core relies on:
    substring search and lower-casing. */
module Strings {

  predicate StartsWith(s: string, prefix: string)
  {
    |prefix| <= |s| && s[..|prefix|] == prefix
  }

  /** `strings.Contains(s, sub)`: `sub` occurs somewhere in `s`
      (the empty string occurs in every string). */
  predicate Contains(s: string, sub: string)
    decreases |s|
  {
    StartsWith(s, sub) || (s != [] && Contains(s[1..], sub))
  }

  /** An occurrence in `s` is still one after anything is put in front of `s`. */
  lemma {:induction false} ContainsAfter(a: string, s: string, sub: string)
    requires Contains(s, sub)
    ensures Contains(a + s, sub)
    decreases |a|
  {
    if a == [] {
      assert a + s == s;
    } else {
      ContainsAfter(a[1..], s, sub);
      assert (a + s)[1..] == a[1..] + s;
    }
  }

  /** An occurrence in `s` is still one after anything is put behind `s`. */
  lemma {:induction false} ContainsBefore(s: string, b: string, sub: string)
    requires Contains(s, sub)
    ensures Contains(s + b, sub)
    decreases |s|
  {
    if StartsWith(s, sub) {
      assert (s + b)[..|sub|] == s[..|sub|];
    } else {
      ContainsBefore(s[1..], b, sub);
      assert (s + b)[1..] == s[1..] + b;
    }
  }

  lemma ContainsItself(s: string)
    ensures Contains(s, s)
  {
  }

  predicate IsUpper(c: char)
  {
    'A' <= c <= 'Z'
  }

  function LowerChar(c: char): char
  {
    if IsUpper(c) then (c as int + 32) as char else c
  }

  /** `strings.ToLower`, on the ASCII letters: every upper-case letter becomes
      its lower-case form and every other character is kept. */
  function ToLower(s: string): (r: string)
    ensures |r| == |s|
    ensures forall i :: 0 <= i < |r| ==> !IsUpper(r[i])
    ensures forall i :: 0 <= i < |s| && !IsUpper(s[i]) ==> r[i] == s[i]
    ensures forall i :: 0 <= i < |s| && IsUpper(s[i]) ==> r[i] as int == s[i] as int + 32
  {
    if s == [] then [] else [LowerChar(s[0])] + ToLower(s[1..])
  }

  /** Lower-casing twice is lower-casing once. */
  lemma ToLowerIdempotent(s: string)
    ensures ToLower(ToLower(s)) == ToLower(s)
  {
  }
}
