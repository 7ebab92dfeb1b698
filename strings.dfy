/** The Python string operations the program uses: `lower`, `join` and `splitlines`. */
module Strings {

  /** `c.lower()` for ASCII characters; every other character is left as it is. */
  function LowerChar(c: char): (r: char)
    ensures !('A' <= r <= 'Z')
    ensures r != c ==> 'A' <= c <= 'Z' && r as int == c as int + 32
  {
    if 'A' <= c <= 'Z' then (c as int + 32) as char else c
  }

  function AsciiLower(s: string): (r: string)
    ensures |r| == |s|
    ensures forall i :: 0 <= i < |s| ==> r[i] == LowerChar(s[i])
  {
    if s == [] then [] else [LowerChar(s[0])] + AsciiLower(s[1..])
  }

  /** Lowering an already lowered name changes nothing. */
  lemma AsciiLowerIdempotent(s: string)
    ensures AsciiLower(AsciiLower(s)) == AsciiLower(s)
  {
    var l := AsciiLower(s);
    assert forall i :: 0 <= i < |l| ==> LowerChar(l[i]) == l[i];
  }

  /** `sep.join(parts)`. */
  function Join(sep: string, parts: seq<string>): string
  {
    if parts == [] then ""
    else if |parts| == 1 then parts[0]
    else parts[0] + sep + Join(sep, parts[1..])
  }

  /** Where `parts[i]` starts in `Join(sep, parts)`. */
  function Offset(sep: string, parts: seq<string>, i: nat): nat
    requires i < |parts|
  {
    if i == 0 then 0 else |parts[0]| + |sep| + Offset(sep, parts[1..], i - 1)
  }

  predicate Occurs(a: string, b: string, k: nat)
  {
    k + |a| <= |b| && b[k..k + |a|] == a
  }

  ghost predicate IsSubstring(a: string, b: string)
  {
    exists k: nat :: Occurs(a, b, k)
  }

  /** A substring of a substring is a substring. */
  lemma SubstringTrans(a: string, b: string, c: string)
    requires IsSubstring(a, b) && IsSubstring(b, c)
    ensures IsSubstring(a, c)
  {
    var i: nat :| Occurs(a, b, i);
    var j: nat :| Occurs(b, c, j);
    assert forall m :: 0 <= m < |a| ==> c[j + i..j + i + |a|][m] == c[j + i + m] == b[i + m] == a[m];
    assert Occurs(a, c, j + i);
  }

  /** Every part stands, whole, at its offset in the joined string. */
  lemma {:induction false} JoinPartAt(sep: string, parts: seq<string>, i: nat)
    requires i < |parts|
    ensures Occurs(parts[i], Join(sep, parts), Offset(sep, parts, i))
  {
    if |parts| == 1 {
    } else if i == 0 {
      assert Join(sep, parts) == parts[0] + (sep + Join(sep, parts[1..]));
    } else {
      JoinPartAt(sep, parts[1..], i - 1);
      var pre := parts[0] + sep;
      var rest := Join(sep, parts[1..]);
      var k := Offset(sep, parts[1..], i - 1);
      assert Join(sep, parts) == pre + rest;
      assert (pre + rest)[|pre| + k..|pre| + k + |parts[i]|] == rest[k..k + |parts[i]|];
    }
  }

  lemma JoinContainsParts(sep: string, parts: seq<string>)
    ensures forall i :: 0 <= i < |parts| ==> IsSubstring(parts[i], Join(sep, parts))
  {
    forall i | 0 <= i < |parts|
      ensures IsSubstring(parts[i], Join(sep, parts))
    {
      JoinPartAt(sep, parts, i);
    }
  }

  /** The characters at which Python's `str.splitlines` breaks a line. */
  predicate IsLineBreak(c: char)
  {
    c == '\n' || c == '\r' || c == '\U{B}' || c == '\U{C}' || c == '\U{1C}' || c == '\U{1D}'
    || c == '\U{1E}' || c == '\U{85}' || c == '\U{2028}' || c == '\U{2029}'
  }

  ghost predicate NoLineBreak(s: string)
  {
    forall i :: 0 <= i < |s| ==> !IsLineBreak(s[i])
  }

  lemma NoLineBreakConcat(a: string, b: string)
    requires NoLineBreak(a) && NoLineBreak(b)
    ensures NoLineBreak(a + b)
  {
    assert forall i :: 0 <= i < |b| ==> (a + b)[|a| + i] == b[i];
  }

  /** The position of the first line break in `s`, or `|s|` when there is none. */
  function FirstBreak(s: string): (k: nat)
    ensures k <= |s|
    ensures k < |s| ==> IsLineBreak(s[k])
    ensures forall m :: 0 <= m < k ==> !IsLineBreak(s[m])
  {
    if s == [] then 0 else if IsLineBreak(s[0]) then 0 else 1 + FirstBreak(s[1..])
  }

  /**
   * `s.splitlines()`: the lines without their line breaks; "\r\n" counts as one break,
   * and a break at the very end does not start another line.
   */
  function SplitLines(s: string): seq<string>
    decreases |s|
  {
    if s == [] then []
    else
      var k := FirstBreak(s);
      if k == |s| then [s]
      else
        var skip := if s[k] == '\r' && k + 1 < |s| && s[k + 1] == '\n' then 2 else 1;
        [s[..k]] + SplitLines(s[k + skip..])
  }

  lemma FirstBreakAt(a: string, rest: string)
    requires NoLineBreak(a)
    requires rest != [] && IsLineBreak(rest[0])
    ensures FirstBreak(a + rest) == |a|
  {
    var s := a + rest;
    var k := FirstBreak(s);
    assert s[|a|] == rest[0];
    assert forall m :: 0 <= m < |a| ==> s[m] == a[m];
  }

  /** A text of lines that hold no line breaks splits back into those lines. */
  lemma {:induction false} SplitLinesOfLines(line: string, rest: string)
    requires NoLineBreak(line)
    ensures SplitLines(line + "\n" + rest) == [line] + SplitLines(rest)
  {
    var s := line + "\n" + rest;
    FirstBreakAt(line, "\n" + rest);
    assert s == line + ("\n" + rest);
    assert s[..|line|] == line;
    assert s[|line| + 1..] == rest;
  }

  lemma SplitLinesOneLine(line: string)
    requires NoLineBreak(line) && line != ""
    ensures SplitLines(line) == [line]
  {
  }
}
