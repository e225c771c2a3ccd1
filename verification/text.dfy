/** The JavaScript string operations that the scanner, the upload filter, the
    client-side validator and the notifier rely on, restricted to ASCII case
    mapping (lower-casing never changes a string's length here). */
module Text {

  /** `toLowerCase` on one character: A-Z become a-z, every other character is kept. */
  function LowerChar(c: char): char
  {
    if 'A' <= c <= 'Z' then (c as int - 'A' as int + 'a' as int) as char else c
  }

  /** `toUpperCase` on one character: a-z become A-Z, every other character is kept. */
  function UpperChar(c: char): char
  {
    if 'a' <= c <= 'z' then (c as int - 'a' as int + 'A' as int) as char else c
  }

  /** `toLowerCase`, character by character; `LowerMapsCapitals` states what it does. */
  function Lower(s: string): (r: string)
    ensures |r| == |s|
  {
    seq(|s|, i requires 0 <= i < |s| => LowerChar(s[i]))
  }

  /** `toUpperCase`, character by character; `UpperMapsSmallLetters` states what it does. */
  function Upper(s: string): (r: string)
    ensures |r| == |s|
  {
    seq(|s|, i requires 0 <= i < |s| => UpperChar(s[i]))
  }

  predicate IsLowerCase(s: string)
  {
    forall i :: 0 <= i < |s| ==> !('A' <= s[i] <= 'Z')
  }

  /** Lower-casing leaves no capitals: each capital becomes its small letter
      and every other character is kept. */
  lemma LowerMapsCapitals(s: string)
    ensures IsLowerCase(Lower(s))
    ensures forall i :: 0 <= i < |s| ==>
      if 'A' <= s[i] <= 'Z' then Lower(s)[i] as int == s[i] as int + 32 else Lower(s)[i] == s[i]
  {
  }

  /** Upper-casing leaves no small letters: each small letter becomes its
      capital and every other character is kept. */
  lemma UpperMapsSmallLetters(s: string)
    ensures forall i :: 0 <= i < |s| ==> !('a' <= Upper(s)[i] <= 'z')
    ensures forall i :: 0 <= i < |s| ==>
      if 'a' <= s[i] <= 'z' then Upper(s)[i] as int == s[i] as int - 32 else Upper(s)[i] == s[i]
  {
  }

  /** Upper-casing a string that has no capitals is undone by lower-casing it. */
  lemma {:induction false} LowerUndoesUpper(s: string)
    requires IsLowerCase(s)
    ensures Lower(Upper(s)) == s
  {
    forall i | 0 <= i < |s|
      ensures Lower(Upper(s))[i] == s[i]
    {
      assert Upper(s)[i] == UpperChar(s[i]);
    }
  }

  /** Lower-casing forgets any upper-casing done before it. */
  lemma {:induction false} LowerIgnoresUpper(s: string)
    ensures Lower(Upper(s)) == Lower(s)
  {
    forall i | 0 <= i < |s|
      ensures Lower(Upper(s))[i] == Lower(s)[i]
    {
      assert Upper(s)[i] == UpperChar(s[i]);
    }
  }

  /** The pattern occurs in `s` starting at offset `i`. */
  predicate OccursAt(s: string, pattern: string, i: int)
  {
    0 <= i <= |s| - |pattern| && s[i..i + |pattern|] == pattern
  }

  /** `s.includes(pattern)`: the pattern occurs in `s` at some offset. */
  predicate Contains(s: string, pattern: string)
  {
    exists i | 0 <= i <= |s| :: OccursAt(s, pattern, i)
  }

  /** A pattern is found only in a text at least as long, and the empty
      pattern is found in every text. */
  lemma ContainsBounds(s: string, pattern: string)
    ensures Contains(s, pattern) ==> |pattern| <= |s|
    ensures pattern == [] ==> Contains(s, pattern)
  {
    if pattern == [] {
      assert OccursAt(s, pattern, 0);
    }
  }

  /** Lower-casing both sides keeps every occurrence, at the same offset. */
  lemma LowerKeepsOccurrence(s: string, pattern: string)
    requires Contains(s, pattern)
    ensures Contains(Lower(s), Lower(pattern))
  {
    var i :| 0 <= i <= |s| && OccursAt(s, pattern, i);
    assert i + |pattern| <= |s| && s[i..i + |pattern|] == pattern;
    assert OccursAt(Lower(s), Lower(pattern), i) by {
      forall k | 0 <= k < |pattern|
        ensures Lower(s)[i..i + |pattern|][k] == Lower(pattern)[k]
      {
        assert s[i + k] == s[i..i + |pattern|][k] == pattern[k];
      }
    }
  }

  /** Nothing but the empty string occurs in the empty string. */
  lemma EmptyContainsNothing(pattern: string)
    requires |pattern| > 0
    ensures !Contains("", pattern)
  {
  }

  /** `s.lastIndexOf(c)`: the position of the last `c` in `s`, or -1 when there is none. */
  function LastIndexOf(s: string, c: char): (r: int)
    ensures -1 <= r < |s|
    ensures r >= 0 ==> s[r] == c
    ensures forall j :: r < j < |s| ==> s[j] != c
  {
    if s == [] then -1
    else if s[|s| - 1] == c then |s| - 1
    else LastIndexOf(s[..|s| - 1], c)
  }

  /** `s.slice(start)`: a negative start counts back from the end (clamped at 0),
      a start past the end gives "". */
  function SliceFrom(s: string, start: int): (r: string)
    ensures |r| <= |s| && r == s[|s| - |r|..]
    ensures start < 0 ==> |r| == (if -start > |s| then |s| else -start)
    ensures start >= 0 ==> |r| == (if start > |s| then 0 else |s| - start)
  {
    var from := if start < 0 then (if |s| + start < 0 then 0 else |s| + start)
                else if start > |s| then |s| else start;
    s[from..]
  }

  /** `s.substring(start)`: a negative start is treated as 0, a start past the end gives "". */
  function SubstringFrom(s: string, start: int): (r: string)
    ensures |r| <= |s| && r == s[|s| - |r|..]
    ensures start <= 0 ==> r == s
    ensures start > 0 ==> |r| == (if start > |s| then 0 else |s| - start)
  {
    var from := if start < 0 then 0 else if start > |s| then |s| else start;
    s[from..]
  }

  const ListSeparator: string := ", "

  /** `xs.join(", ")`. */
  function JoinList(xs: seq<string>): (r: string)
    ensures (forall i :: 0 <= i < |xs| ==> ',' !in xs[i]) ==> (',' in r <==> |xs| >= 2)
  {
    if xs == [] then ""
    else if |xs| == 1 then xs[0]
    else xs[0] + ListSeparator + JoinList(xs[1..])
  }

  /** `s.split(", ")`: the pieces between occurrences of the separator, read left to right. */
  function SplitList(s: string): (pieces: seq<string>)
    ensures |pieces| >= 1
    decreases |s|
  {
    if s == [] then [""]
    else if |s| >= 2 && s[0] == ',' && s[1] == ' ' then [""] + SplitList(s[2..])
    else
      var rest := SplitList(s[1..]);
      [[s[0]] + rest[0]] + rest[1..]
  }

  lemma {:induction false} SplitWithoutComma(x: string)
    requires ',' !in x
    ensures SplitList(x) == [x]
    decreases |x|
  {
    if x != [] {
      SplitWithoutComma(x[1..]);
      assert [x[0]] + x[1..] == x;
    }
  }

  lemma {:induction false} SplitAfterPiece(x: string, rest: string)
    requires ',' !in x
    ensures SplitList(x + ListSeparator + rest) == [x] + SplitList(rest)
    decreases |x|
  {
    var s := x + ListSeparator + rest;
    if x == [] {
      assert s == ", " + rest;
      assert s[2..] == rest;
    } else {
      assert s[0] == x[0] && x[0] != ',';
      assert s[1..] == x[1..] + ListSeparator + rest;
      SplitAfterPiece(x[1..], rest);
      assert [x[0]] + x[1..] == x;
    }
  }

  /** Splitting a joined list gives the list back, provided it is not empty and
      no element holds a comma. */
  lemma {:induction false} SplitUndoesJoin(xs: seq<string>)
    requires xs != []
    requires forall i :: 0 <= i < |xs| ==> ',' !in xs[i]
    ensures SplitList(JoinList(xs)) == xs
    decreases |xs|
  {
    if |xs| == 1 {
      SplitWithoutComma(xs[0]);
    } else {
      SplitUndoesJoin(xs[1..]);
      SplitAfterPiece(xs[0], JoinList(xs[1..]));
      assert [xs[0]] + xs[1..] == xs;
    }
  }

  function DigitChar(d: int): char
    requires 0 <= d < 10
  {
    ('0' as int + d) as char
  }

  /** The number a string of decimal digits denotes, most significant first. */
  function DecimalValue(s: string): nat
  {
    if s == [] then 0
    else if '0' <= s[|s| - 1] <= '9' then DecimalValue(s[..|s| - 1]) * 10 + (s[|s| - 1] as int - '0' as int)
    else DecimalValue(s[..|s| - 1]) * 10
  }

  /** Reading the decimal text of `n` back gives `n`: the text identifies the number. */
  lemma {:induction false} DecimalRoundTrip(n: nat)
    ensures DecimalValue(DecimalText(n)) == n
  {
    if n >= 10 {
      DecimalRoundTrip(n / 10);
      var t := DecimalText(n);
      assert t[..|t| - 1] == DecimalText(n / 10);
    }
  }

  /** Different numbers have different decimal texts. */
  lemma DecimalTextInjective(m: nat, n: nat)
    requires DecimalText(m) == DecimalText(n)
    ensures m == n
  {
    DecimalRoundTrip(m);
    DecimalRoundTrip(n);
  }

  /** The decimal text of a natural number, without leading zeros. */
  function DecimalText(n: nat): (r: string)
    ensures |r| >= 1
    ensures forall i :: 0 <= i < |r| ==> '0' <= r[i] <= '9'
  {
    if n < 10 then [DigitChar(n)] else DecimalText(n / 10) + [DigitChar(n % 10)]
  }
}
