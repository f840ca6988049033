/**
  The handful of PHP string built-ins the tile engine relies on: trim/rtrim,
  substr from offset 0 (with PHP's negative-length rule), strtolower and
  explode. PHP strings are byte strings; here they are `seq<char>`.
 */
module PhpStrings {

  /** The characters PHP's trim() and rtrim() remove when no list is given:
      space, tab, newline, carriage return, NUL and vertical tab. */
  const Whitespace: set<char> := {' ', '\t', '\n', '\r', 0 as char, 11 as char}

  /** ltrim(s, chars): drop every leading character that is in `chars`. */
  function LTrim(s: string, chars: set<char>): (r: string)
    ensures |r| <= |s| && r == s[|s| - |r|..]
    ensures r == [] || r[0] !in chars
    ensures forall i :: 0 <= i < |s| - |r| ==> s[i] in chars
  {
    if s != [] && s[0] in chars then LTrim(s[1..], chars) else s
  }

  /** rtrim(s, chars): drop every trailing character that is in `chars`. */
  function RTrim(s: string, chars: set<char>): (r: string)
    ensures |r| <= |s| && r == s[..|r|]
    ensures r == [] || r[|r| - 1] !in chars
    ensures forall i :: |r| <= i < |s| ==> s[i] in chars
  {
    if s != [] && s[|s| - 1] in chars then RTrim(s[..|s| - 1], chars) else s
  }

  /** trim(s): both ends, default character list. */
  function Trim(s: string): string
  {
    RTrim(LTrim(s, Whitespace), Whitespace)
  }

  /** A string that already has nothing removable at either end is its own trim. */
  lemma TrimUnchanged(s: string, chars: set<char>)
    requires s == [] || (s[0] !in chars && s[|s| - 1] !in chars)
    ensures RTrim(LTrim(s, chars), chars) == s
  {
  }

  /** substr(s, 0, length) as PHP 8 defines it: a negative length leaves that
      many characters off the end, and asking for more than there is gives "". */
  function SubstrPrefix(s: string, length: int): (r: string)
    ensures |r| <= |s| && r == s[..|r|]
    ensures length >= 0 ==> |r| == if length < |s| then length else |s|
    ensures length < 0 ==> |r| == if -length < |s| then |s| + length else 0
  {
    if length >= 0 then s[..if length < |s| then length else |s|]
    else if -length >= |s| then []
    else s[..|s| + length]
  }

  /** strtolower on one byte: only the ASCII capitals change. */
  function LowerChar(c: char): char
  {
    if 'A' <= c <= 'Z' then (c as int - 'A' as int + 'a' as int) as char else c
  }

  function ToLower(s: string): (r: string)
    ensures |r| == |s|
    ensures forall i :: 0 <= i < |s| ==> r[i] == LowerChar(s[i])
  {
    if s == [] then [] else [LowerChar(s[0])] + ToLower(s[1..])
  }

  /** Case-insensitive equality, defined position by position. */
  predicate EqualsIgnoreCase(a: string, b: string)
  {
    |a| == |b| && forall i :: 0 <= i < |a| ==> LowerChar(a[i]) == LowerChar(b[i])
  }

  /** Comparing strtolower(a) with a lower-case literal is case-insensitive equality with it. */
  lemma ToLowerEqualsLiteral(a: string, lit: string)
    requires ToLower(lit) == lit
    ensures ToLower(a) == lit <==> EqualsIgnoreCase(a, lit)
  {
    if EqualsIgnoreCase(a, lit) {
      assert forall i :: 0 <= i < |a| ==> ToLower(a)[i] == LowerChar(lit[i]) == ToLower(lit)[i];
    }
  }

  /** explode(sep, s): the pieces between separators, in order; "" gives [""]. */
  function Split(s: string, sep: char): (parts: seq<string>)
    ensures |parts| >= 1
    ensures forall p :: p in parts ==> sep !in p
    ensures Join(parts, sep) == s
  {
    if s == [] then [[]]
    else
      var rest := Split(s[1..], sep);
      if s[0] == sep then
        assert [sep] + Join(rest, sep) == s;
        [[]] + rest
      else
        var head := [s[0]] + rest[0];
        assert [s[0]] + Join(rest, sep) == s;
        if |rest| == 1 then [head]
        else
          assert Join([head] + rest[1..], sep) == head + [sep] + Join(rest[1..], sep) by {
            assert ([head] + rest[1..])[1..] == rest[1..];
          }
          [head] + rest[1..]
  }

  /** implode(sep, parts). */
  function Join(parts: seq<string>, sep: char): string
    requires |parts| >= 1
  {
    if |parts| == 1 then parts[0] else parts[0] + [sep] + Join(parts[1..], sep)
  }

  /** explode undoes implode whenever no piece contains the separator. */
  lemma {:induction false} SplitJoin(parts: seq<string>, sep: char)
    requires |parts| >= 1
    requires forall p :: p in parts ==> sep !in p
    ensures Split(Join(parts, sep), sep) == parts
  {
    if |parts| == 1 {
      SplitOfSeparatorFree(parts[0], sep);
    } else {
      SplitJoin(parts[1..], sep);
      SplitPrefixed(parts[0], Join(parts[1..], sep), sep);
    }
  }

  lemma {:induction false} SplitOfSeparatorFree(s: string, sep: char)
    requires sep !in s
    ensures Split(s, sep) == [s]
  {
    if s != [] {
      SplitOfSeparatorFree(s[1..], sep);
    }
  }

  /** A separator-free head followed by the separator becomes its own first piece. */
  lemma {:induction false} SplitPrefixed(head: string, tail: string, sep: char)
    requires sep !in head
    ensures Split(head + [sep] + tail, sep) == [head] + Split(tail, sep)
  {
    var s := head + [sep] + tail;
    if head == [] {
      assert s[0] == sep && s[1..] == tail;
    } else {
      assert s[1..] == head[1..] + [sep] + tail;
      SplitPrefixed(head[1..], tail, sep);
      var rest := Split(s[1..], sep);
      assert |rest| >= 2 && rest[0] == head[1..] && rest[1..] == Split(tail, sep);
      assert [s[0]] + rest[0] == head;
    }
  }
}
