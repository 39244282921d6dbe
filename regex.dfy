/**
 Anchored regular expressions built from counted character classes, the only
 shape the signup flow uses: `^\d{12}$` for an Aadhar card number and
 `^[6-9]\d{9}$` for a phone number, both on the server and in the signup form.
 A pattern is a sequence of atoms `class{count}` between `^` and `$`. Every
 atom has a fixed width, so matching needs no backtracking.
 */
module Regex {

  /** `\d` or a bracket range `[lo-hi]`. The patterns carry no `u` flag, so `\d` is ASCII `0-9` only. */
  datatype CharClass = Digit | Range(lo: char, hi: char)

  /** `cls{count}`; a bare class is `cls{1}`. */
  datatype Atom = Atom(cls: CharClass, count: nat)

  /** `^a1 a2 ... an$`: anchored at both ends. */
  type Pattern = seq<Atom>

  predicate IsAsciiDigit(c: char) {
    '0' <= c <= '9'
  }

  predicate InClass(c: char, cls: CharClass) {
    match cls
    case Digit => IsAsciiDigit(c)
    case Range(lo, hi) => lo <= c <= hi
  }

  /** `RegExp.prototype.test` of an anchored pattern: the whole string must be consumed. */
  predicate Test(p: Pattern, s: string)
    decreases p
  {
    if p == [] then s == []
    else
      var n := p[0].count;
      n <= |s| && (forall i :: 0 <= i < n ==> InClass(s[i], p[0].cls)) && Test(p[1..], s[n..])
  }

  /** The number of characters a pattern matches. */
  function Width(p: Pattern): nat {
    if p == [] then 0 else p[0].count + Width(p[1..])
  }

  /** Whatever a pattern matches has exactly its width. */
  lemma {:induction false} TestWidth(p: Pattern, s: string)
    requires Test(p, s)
    ensures |s| == Width(p)
  {
    if p != [] {
      TestWidth(p[1..], s[p[0].count..]);
    }
  }

  /** `/^\d{12}$/`, the Aadhar card pattern. */
  const AadharPattern: Pattern := [Atom(Digit, 12)]

  /** `/^[6-9]\d{9}$/`, the Indian mobile number pattern. */
  const PhonePattern: Pattern := [Atom(Range('6', '9'), 1), Atom(Digit, 9)]

  /** An Aadhar card number as documented: exactly twelve ASCII digits. */
  predicate IsAadharNumber(s: string) {
    |s| == 12 && forall i :: 0 <= i < |s| ==> IsAsciiDigit(s[i])
  }

  /** A phone number as documented: ten ASCII digits, the first one 6, 7, 8 or 9. */
  predicate IsPhoneNumber(s: string) {
    |s| == 10 && '6' <= s[0] <= '9' && forall i :: 1 <= i < |s| ==> IsAsciiDigit(s[i])
  }

  /** The Aadhar pattern accepts exactly the twelve-digit strings. */
  lemma AadharPatternMeaning(s: string)
    ensures Test(AadharPattern, s) <==> IsAadharNumber(s)
  {
  }

  /** The phone pattern accepts exactly the ten-digit strings that start with 6 to 9. */
  lemma PhonePatternMeaning(s: string)
    ensures Test(PhonePattern, s) <==> IsPhoneNumber(s)
  {
  }
}
