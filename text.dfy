/**
 * The parts of the .NET string library that the backup engine relies on:
 * char.IsWhiteSpace, string.IsNullOrWhiteSpace, string.Split on a set of
 * separator characters, string.Join, decimal formatting of an int and
 * int.TryParse. A C# null string is modelled as "" throughout. Split,
 * Path.Combine and Directory.CreateDirectory throw on null, but the reason is
 * never null (the controller replaces a null or blank reason with "Manual",
 * BackupController.cs:27, and the scheduler passes "automated") and a null
 * backup directory fails at Directory.CreateDirectory first (a fault of the
 * run environment); File.Exists, Enum.TryParse, int.TryParse and
 * IsNullOrWhiteSpace treat null and "" alike.
 */
module Text {
  import opened Common

  /** char.IsWhiteSpace: the characters with the Unicode White_Space property. */
  predicate IsWhiteSpace(c: char) {
    ('\U{9}' <= c <= '\U{D}') || c == ' ' || c == '\U{85}' || c == '\U{A0}' || c == '\U{1680}'
    || ('\U{2000}' <= c <= '\U{200A}') || c == '\U{2028}' || c == '\U{2029}'
    || c == '\U{202F}' || c == '\U{205F}' || c == '\U{3000}'
  }

  /** string.IsNullOrWhiteSpace. */
  predicate IsNullOrWhiteSpace(s: string) {
    forall i :: 0 <= i < |s| ==> IsWhiteSpace(s[i])
  }

  predicate IsPrefix(p: string, s: string) {
    |p| <= |s| && s[..|p|] == p
  }

  predicate IsSuffix(p: string, s: string) {
    |p| <= |s| && s[|s| - |p|..] == p
  }

  lemma SuffixTransitive(a: string, b: string, c: string)
    requires IsSuffix(a, b) && IsSuffix(b, c)
    ensures IsSuffix(a, c)
  {
    assert c[|c| - |a|..] == c[|c| - |b|..][|b| - |a|..];
  }

  predicate NoneIn(s: string, chars: set<char>) {
    forall i :: 0 <= i < |s| ==> s[i] !in chars
  }

  // ---------------------------------------------------------------------
  // Split and Join
  // ---------------------------------------------------------------------

  /**
   * s.Split(separators): the pieces of s between separator characters, in
   * order; empty pieces are kept, so k separators give k + 1 pieces.
   * .NET splits on white space when the separator array is empty; the engine
   * only splits on Path.GetInvalidFileNameChars() and ':', which are never
   * empty, so that case is not modelled and an empty set gives [s].
   */
  function Split(s: string, separators: set<char>): (parts: seq<string>)
    ensures |parts| >= 1
    ensures forall k :: 0 <= k < |parts| ==> NoneIn(parts[k], separators)
  {
    if s == [] then [[]]
    else
      var rest := Split(s[1..], separators);
      if s[0] in separators then [[]] + rest
      else [[s[0]] + rest[0]] + rest[1..]
  }

  /** string.Join(separator, parts). */
  function Join(separator: string, parts: seq<string>): string
  {
    if |parts| == 0 then []
    else if |parts| == 1 then parts[0]
    else parts[0] + separator + Join(separator, parts[1..])
  }

  /** s with every character of chars replaced by c, all other characters kept. */
  function Substitute(s: string, chars: set<char>, c: char): (r: string)
    ensures |r| == |s|
    ensures forall i :: 0 <= i < |s| ==> r[i] == if s[i] in chars then c else s[i]
  {
    if s == [] then []
    else [if s[0] in chars then c else s[0]] + Substitute(s[1..], chars, c)
  }

  lemma JoinConsFirst(separator: string, x: char, parts: seq<string>)
    requires |parts| >= 1
    ensures Join(separator, [[x] + parts[0]] + parts[1..]) == [x] + Join(separator, parts)
  {
    if |parts| > 1 {
      assert ([[x] + parts[0]] + parts[1..])[1..] == parts[1..];
    }
  }

  /**
   * Joining the pieces of a split with a one-character glue replaces every
   * separator by the glue: string.Join("_", s.Split(chars)) is a character
   * by character substitution.
   */
  lemma {:induction false} JoinSplitSubstitutes(s: string, chars: set<char>, c: char)
    ensures Join([c], Split(s, chars)) == Substitute(s, chars, c)
  {
    if s != [] {
      var rest := Split(s[1..], chars);
      JoinSplitSubstitutes(s[1..], chars, c);
      if s[0] in chars {
        assert Split(s, chars) == [[]] + rest;
        assert ([[]] + rest)[1..] == rest;
      } else {
        assert Split(s, chars) == [[s[0]] + rest[0]] + rest[1..];
        JoinConsFirst([c], s[0], rest);
      }
    }
  }

  /** A string without separators splits into itself alone. */
  lemma {:induction false} SplitWithoutSeparator(a: string, separators: set<char>)
    requires NoneIn(a, separators)
    ensures Split(a, separators) == [a]
  {
    if a != [] {
      SplitWithoutSeparator(a[1..], separators);
      assert [a[0]] + a[1..] == a;
    }
  }

  /** The first separator ends the first piece; the rest is split on its own. */
  lemma {:induction false} SplitAtSeparator(a: string, c: char, rest: string, separators: set<char>)
    requires NoneIn(a, separators) && c in separators
    ensures Split(a + [c] + rest, separators) == [a] + Split(rest, separators)
  {
    var s := a + [c] + rest;
    if a == [] {
      assert s[1..] == rest;
    } else {
      assert s[1..] == a[1..] + [c] + rest;
      SplitAtSeparator(a[1..], c, rest, separators);
      assert [a[0]] + a[1..] == a;
    }
  }

  // ---------------------------------------------------------------------
  // Decimal formatting and int.TryParse
  // ---------------------------------------------------------------------

  predicate IsDigit(c: char) {
    '0' <= c <= '9'
  }

  predicate AllDigits(s: string) {
    forall i :: 0 <= i < |s| ==> IsDigit(s[i])
  }

  function DigitValue(c: char): nat
    requires IsDigit(c)
  {
    (c as int) - ('0' as int)
  }

  function DigitChar(d: nat): (c: char)
    requires d < 10
    ensures IsDigit(c) && DigitValue(c) == d
  {
    (('0' as int) + d) as char
  }

  /** The value of a string of decimal digits, read most significant first. */
  function DigitsValue(s: string): nat
    requires AllDigits(s)
  {
    if s == [] then 0 else DigitsValue(s[..|s| - 1]) * 10 + DigitValue(s[|s| - 1])
  }

  /** The decimal digits of n as Int32.ToString() writes them: no sign, no leading zero. */
  function NatToString(n: nat): (s: string)
    ensures 1 <= |s| && AllDigits(s)
    ensures |s| > 1 ==> s[0] != '0'
  {
    if n < 10 then [DigitChar(n)] else NatToString(n / 10) + [DigitChar(n % 10)]
  }

  /** Int32.ToString() in the invariant culture: a '-' sign for negative values. */
  function IntToString(n: int): (s: string)
  {
    if n < 0 then "-" + NatToString(-n) else NatToString(n)
  }

  /** The characters that NumberStyles.Integer lets int.TryParse skip around the number. */
  predicate IsNumberWhite(c: char) {
    c == ' ' || ('\U{9}' <= c <= '\U{D}')
  }

  function TrimNumberWhite(s: string): (t: string)
    ensures |t| <= |s|
  {
    if s != [] && IsNumberWhite(s[0]) then TrimNumberWhite(s[1..])
    else if s != [] && IsNumberWhite(s[|s| - 1]) then TrimNumberWhite(s[..|s| - 1])
    else s
  }

  const Int32Min: int := -0x8000_0000
  const Int32Max: int := 0x7FFF_FFFF

  /**
   * int.TryParse(s, out v) with NumberStyles.Integer in the invariant culture:
   * Some(v) when it returns true, None when it returns false (no digits, a
   * stray character, or a value outside the 32-bit range).
   */
  function ParseInt32(s: string): (r: Option<int>)
    ensures r.Some? ==> Int32Min <= r.value <= Int32Max
  {
    var t := TrimNumberWhite(s);
    var negative := t != [] && t[0] == '-';
    var digits := if t != [] && (t[0] == '-' || t[0] == '+') then t[1..] else t;
    if digits == [] || !AllDigits(digits) then None
    else
      var value: int := DigitsValue(digits);
      var v := if negative then -value else value;
      if Int32Min <= v <= Int32Max then Some(v) else None
  }

  /** The out value of int.TryParse as the engine uses it: 0 when parsing fails. */
  function ParseInt32OrZero(s: string): int
  {
    match ParseInt32(s)
    case Some(v) => v
    case None => 0
  }

  /** Reading back the digits NatToString writes gives the number. */
  lemma {:induction false} NatToStringValue(n: nat)
    ensures DigitsValue(NatToString(n)) == n
  {
    if n >= 10 {
      var s := NatToString(n);
      assert s[..|s| - 1] == NatToString(n / 10);
      NatToStringValue(n / 10);
    }
  }

  /** Decimal formatting and int.TryParse are inverse on the 32-bit range. */
  lemma ParseInt32OfIntToString(n: int)
    requires Int32Min <= n <= Int32Max
    ensures ParseInt32(IntToString(n)) == Some(n)
  {
    var s := IntToString(n);
    var m: nat := if n < 0 then -n else n;
    NatToStringValue(m);
    var digits := NatToString(m);
    assert !IsNumberWhite(s[0]) && !IsNumberWhite(s[|s| - 1]);
    assert TrimNumberWhite(s) == s;
    if n < 0 {
      assert s[1..] == digits;
    }
  }
}
