/**
  Decimal integers as text: the "%s" rendering of an integer used by sprintf,
  PHP's intval() on a string and Python's int() on a string.
 */
module Decimal {
  import opened Wrappers
  import PhpStrings

  predicate IsDigit(c: char) { '0' <= c <= '9' }

  predicate AllDigits(s: string) { forall i :: 0 <= i < |s| ==> IsDigit(s[i]) }

  function DigitChar(d: int): (c: char)
    requires 0 <= d < 10
    ensures IsDigit(c) && c as int - '0' as int == d
  {
    ('0' as int + d) as char
  }

  /** The shortest decimal spelling of a natural number. */
  function NatStr(n: nat): (r: string)
    ensures |r| >= 1 && AllDigits(r)
  {
    if n < 10 then [DigitChar(n)] else NatStr(n / 10) + [DigitChar(n % 10)]
  }

  /** An integer as sprintf's "%s" prints it: a minus sign before a negative one. */
  function IntStr(i: int): string
  {
    if i < 0 then "-" + NatStr(-i) else NatStr(i)
  }

  /** The value of a string of decimal digits ("" counts as 0). */
  function DigitsValue(s: string): nat
    requires AllDigits(s)
  {
    if s == [] then 0 else DigitsValue(s[..|s| - 1]) * 10 + (s[|s| - 1] as int - '0' as int)
  }

  lemma {:induction false} NatStrValue(n: nat)
    ensures DigitsValue(NatStr(n)) == n
  {
    if n >= 10 {
      NatStrValue(n / 10);
      var s := NatStr(n);
      assert s[..|s| - 1] == NatStr(n / 10);
    }
  }

  /** Different numbers print differently. */
  lemma NatStrInjective(m: nat, n: nat)
    ensures NatStr(m) == NatStr(n) ==> m == n
  {
    NatStrValue(m);
    NatStrValue(n);
  }

  /** The longest run of digits at the front of s. */
  function LeadingDigits(s: string): (r: string)
    ensures |r| <= |s| && AllDigits(r) && r == s[..|r|]
    ensures |r| == |s| || !IsDigit(s[|r|])
  {
    if s != [] && IsDigit(s[0]) then [s[0]] + LeadingDigits(s[1..]) else []
  }

  /** The blanks intval() skips before a number: space, tab, newline, carriage return, vertical tab, form feed. */
  const IntValSpace: set<char> := {' ', '\t', '\n', '\r', 11 as char, 12 as char}

  /** PHP's intval() of a string: leading blanks, an optional sign, then as many
      digits as there are; anything else ends the number, and no digits at all give 0. */
  function IntVal(s: string): (v: int)
    ensures AllDigits(s) ==> v == DigitsValue(s)
  {
    DigitsUntrimmed(s);
    var t := PhpStrings.LTrim(s, IntValSpace);
    if t != [] && t[0] == '-' then -(DigitsValue(LeadingDigits(t[1..])) as int)
    else if t != [] && t[0] == '+' then DigitsValue(LeadingDigits(t[1..]))
    else DigitsValue(LeadingDigits(t))
  }

  /** intval() reads back what "%s" prints, so an integer stored as text comes back as itself. */
  lemma IntValIntStr(i: int)
    ensures IntVal(IntStr(i)) == i
  {
    var s := IntStr(i);
    assert s[0] == '-' || IsDigit(s[0]);
    assert s[0] !in IntValSpace;
    assert PhpStrings.LTrim(s, IntValSpace) == s;
    if i < 0 {
      assert s[1..] == NatStr(-i);
      LeadingDigitsOfDigits(NatStr(-i));
      NatStrValue(-i);
    } else {
      LeadingDigitsOfDigits(NatStr(i));
      NatStrValue(i);
    }
  }

  /** A string of digits has no blanks to skip and is one run of digits. */
  lemma DigitsUntrimmed(s: string)
    ensures AllDigits(s) ==> PhpStrings.LTrim(s, IntValSpace) == s && LeadingDigits(s) == s
  {
    if AllDigits(s) {
      if s != [] {
        assert s[0] !in IntValSpace;
      }
      LeadingDigitsOfDigits(s);
    }
  }

  lemma LeadingDigitsOfDigits(s: string)
    requires AllDigits(s)
    ensures LeadingDigits(s) == s
  {
  }

  /** The ASCII whitespace around a number that both Python's int() and intval() skip.
      int() also skips the separators \x1c-\x1f and Unicode spaces, which are not modelled. */
  const PySpace: set<char> := IntValSpace

  /** Python's int() of a string: surrounding whitespace, an optional sign and
      at least one digit, nothing else; anything else is a ValueError (None). */
  function ParseInt(s: string): (r: Option<int>)
    ensures s == [] ==> r == None
    ensures s != [] && AllDigits(s) ==> r == Some(DigitsValue(s))
  {
    if s != [] && AllDigits(s) then
      assert s[0] !in PySpace && s[|s| - 1] !in PySpace;
      PhpStrings.TrimUnchanged(s, PySpace);
      ParseSigned(PhpStrings.RTrim(PhpStrings.LTrim(s, PySpace), PySpace))
    else
      ParseSigned(PhpStrings.RTrim(PhpStrings.LTrim(s, PySpace), PySpace))
  }

  /** An optional sign followed by at least one digit and nothing else. */
  function ParseSigned(t: string): Option<int>
  {
    var negative := t != [] && t[0] == '-';
    var digits := if t != [] && (t[0] == '-' || t[0] == '+') then t[1..] else t;
    if |digits| >= 1 && AllDigits(digits) then
      Some(if negative then -(DigitsValue(digits) as int) else DigitsValue(digits))
    else None
  }

  /** A printed integer begins with a sign or a digit and ends with a digit. */
  lemma IntStrEnds(i: int)
    ensures |IntStr(i)| >= 1
    ensures IntStr(i)[0] == '-' || IsDigit(IntStr(i)[0])
    ensures IsDigit(IntStr(i)[|IntStr(i)| - 1])
  {
  }

  /** The sign-and-digits reading of a printed integer is that integer. */
  lemma ParseSignedIntStr(i: int)
    ensures ParseSigned(IntStr(i)) == Some(i)
  {
    var s := IntStr(i);
    if i < 0 {
      assert s[1..] == NatStr(-i);
      NatStrValue(-i);
    } else {
      NatStrValue(i);
    }
  }

  /** int() reads back what "%s" prints. */
  lemma ParseIntIntStr(i: int)
    ensures ParseInt(IntStr(i)) == Some(i)
  {
    IntStrEnds(i);
    PhpStrings.TrimUnchanged(IntStr(i), PySpace);
    ParseSignedIntStr(i);
  }
}
