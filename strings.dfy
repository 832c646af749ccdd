/** ASCII models of the .NET string operations the game code relies on:
  * `Char.IsWhiteSpace`, `ToLower`, `Trim`, `StartsWith`, `Contains`,
  * `IndexOf`, `Split(char)` and `string.Join`. */
module Strings {

  /** `Char.IsWhiteSpace` restricted to ASCII: tab, line feed, vertical tab,
    * form feed, carriage return and space. */
  predicate IsWhiteSpace(c: char) {
    c == ' ' || '\t' <= c <= '\r'
  }

  predicate IsAsciiLetter(c: char) {
    'a' <= c <= 'z' || 'A' <= c <= 'Z'
  }

  predicate IsDigit(c: char) {
    '0' <= c <= '9'
  }

  /** `Char.IsLetterOrDigit` restricted to ASCII. */
  predicate IsLetterOrDigit(c: char) {
    IsAsciiLetter(c) || IsDigit(c)
  }

  /** `string.IsNullOrWhiteSpace` with `null` modelled as the empty string. */
  predicate IsNullOrWhiteSpace(s: string) {
    forall i :: 0 <= i < |s| ==> IsWhiteSpace(s[i])
  }

  function LowerChar(c: char): char {
    if 'A' <= c <= 'Z' then (c as int + 32) as char else c
  }

  /** `ToLower` on ASCII letters; every other character is kept. */
  function ToLower(s: string): (r: string)
    ensures |r| == |s|
    ensures forall i :: 0 <= i < |s| ==> r[i] == LowerChar(s[i])
  {
    if s == [] then [] else [LowerChar(s[0])] + ToLower(s[1..])
  }

  /** Ordinal comparison that ignores ASCII case. */
  predicate EqualsIgnoreCase(a: string, b: string) {
    ToLower(a) == ToLower(b)
  }

  function TrimStart(s: string): (r: string)
    ensures |r| <= |s| && r == s[|s| - |r|..]
    ensures r == [] || !IsWhiteSpace(r[0])
  {
    if |s| > 0 && IsWhiteSpace(s[0]) then TrimStart(s[1..]) else s
  }

  function TrimEnd(s: string): (r: string)
    ensures |r| <= |s| && r == s[..|r|]
    ensures r == [] || !IsWhiteSpace(r[|r| - 1])
  {
    if |s| > 0 && IsWhiteSpace(s[|s| - 1]) then TrimEnd(s[..|s| - 1]) else s
  }

  /** `Trim()`: drop leading and trailing white space. */
  function Trim(s: string): string {
    TrimEnd(TrimStart(s))
  }

  predicate StartsWith(s: string, prefix: string) {
    |prefix| <= |s| && s[..|prefix|] == prefix
  }

  predicate EndsWith(s: string, suffix: string) {
    |suffix| <= |s| && s[|s| - |suffix|..] == suffix
  }

  /** `string.Contains(string)`: `sub` occurs somewhere in `s`. */
  predicate Contains(s: string, sub: string)
    decreases |s|
  {
    StartsWith(s, sub) || (|s| > 0 && Contains(s[1..], sub))
  }

  /** `IndexOf(char)`: the first position of `c`, or -1. */
  function IndexOf(s: string, c: char): (r: int)
    ensures -1 <= r < |s|
    ensures r >= 0 ==> s[r] == c && c !in s[..r]
    ensures r < 0 <==> c !in s
  {
    if |s| == 0 then -1
    else if s[0] == c then 0
    else
      var k := IndexOf(s[1..], c);
      if k < 0 then -1 else k + 1
  }

  /** `Split(sep)`: the pieces between occurrences of `sep`. Like .NET it
    * never returns an empty array and keeps empty pieces. */
  function Split(s: string, sep: char): (r: seq<string>)
    ensures |r| >= 1
    ensures forall i :: 0 <= i < |r| ==> sep !in r[i]
    decreases |s|
  {
    var k := IndexOf(s, sep);
    if k < 0 then [s]
    else
      var rest := Split(s[k + 1..], sep);
      var r := [s[..k]] + rest;
      assert sep !in r[0];
      assert forall i :: 1 <= i < |r| ==> r[i] == rest[i - 1];
      r
  }

  /** `string.Join(sep, parts)`. */
  function Join(parts: seq<string>, sep: char): string {
    if |parts| == 0 then ""
    else if |parts| == 1 then parts[0]
    else parts[0] + [sep] + Join(parts[1..], sep)
  }

  /** Splitting a joined list gives the list back, provided no part holds the
    * separator. */
  lemma {:induction false} SplitJoin(parts: seq<string>, sep: char)
    requires |parts| >= 1
    requires forall i :: 0 <= i < |parts| ==> sep !in parts[i]
    ensures Split(Join(parts, sep), sep) == parts
  {
    if |parts| > 1 {
      var s := Join(parts, sep);
      var rest := Join(parts[1..], sep);
      assert s == parts[0] + [sep] + rest;
      assert s[|parts[0]|] == sep;
      assert s[..|parts[0]|] == parts[0];
      assert IndexOf(s, sep) == |parts[0]|;
      assert s[|parts[0]| + 1..] == rest;
      SplitJoin(parts[1..], sep);
    }
  }

  /** Joining the pieces of a split gives the string back. */
  lemma {:induction false} JoinSplit(s: string, sep: char)
    ensures Join(Split(s, sep), sep) == s
    decreases |s|
  {
    var k := IndexOf(s, sep);
    if k >= 0 {
      var rest := Split(s[k + 1..], sep);
      assert Split(s, sep) == [s[..k]] + rest;
      assert Split(s, sep)[1..] == rest;
      JoinSplit(s[k + 1..], sep);
      calc {
        Join(Split(s, sep), sep);
        s[..k] + [sep] + Join(rest, sep);
        s[..k] + [sep] + s[k + 1..];
        s;
      }
    }
  }

  /** Every piece of a split is a piece of the original text. */
  lemma {:induction false} SplitPiecesShorter(s: string, sep: char, i: nat)
    requires i < |Split(s, sep)|
    ensures |Split(s, sep)[i]| <= |s|
    decreases |s|
  {
    var k := IndexOf(s, sep);
    if k >= 0 && i > 0 {
      SplitPiecesShorter(s[k + 1..], sep, i - 1);
    }
  }

  /** Splitting at a first separator: the text before it is the first
    * piece, and the rest splits on its own. */
  lemma SplitAtFirst(x: string, sep: char, y: string)
    requires sep !in x
    ensures Split(x + [sep] + y, sep) == [x] + Split(y, sep)
  {
    var s := x + [sep] + y;
    assert s[|x|] == sep;
    assert s[..|x|] == x;
    assert s[|x| + 1..] == y;
    assert IndexOf(s, sep) == |x|;
  }

  /** A string without the separator splits into itself alone. */
  lemma SplitWithout(s: string, sep: char)
    requires sep !in s
    ensures Split(s, sep) == [s]
  {
  }
}
