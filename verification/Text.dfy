/** The string operations the components share. */
module Text {
  import opened Sequences

  /** White space as Unicode defines it. */
  predicate IsSpace(c: char) {
    || '\U{9}' <= c <= '\U{D}' || c == ' ' || c == '\U{85}' || c == '\U{A0}' || c == '\U{1680}'
    || '\U{2000}' <= c <= '\U{200A}' || c == '\U{2028}' || c == '\U{2029}' || c == '\U{202F}'
    || c == '\U{205F}' || c == '\U{3000}'
  }

  function TrimStart(s: string): (r: string)
    ensures |r| <= |s| && r == s[|s| - |r|..]
    ensures r != "" ==> !IsSpace(r[0])
  {
    if s != "" && IsSpace(s[0]) then TrimStart(s[1..]) else s
  }

  function TrimEnd(s: string): (r: string)
    ensures r <= s
    ensures r != "" ==> !IsSpace(r[|r| - 1])
  {
    if s != "" && IsSpace(s[|s| - 1]) then TrimEnd(s[..|s| - 1]) else s
  }

  function Trim(s: string): string {
    TrimEnd(TrimStart(s))
  }

  predicate Blank(s: string) {
    Trim(s) == ""
  }

  /** A text without white space at either end is left as it is. */
  lemma TrimLeavesTrimmed(s: string)
    requires s != "" ==> !IsSpace(s[0]) && !IsSpace(s[|s| - 1])
    ensures Trim(s) == s
  {
  }

  lemma TrimmedEnds(s: string)
    ensures Trim(s) != "" ==> !IsSpace(Trim(s)[0]) && !IsSpace(Trim(s)[|Trim(s)| - 1])
  {
    var t := Trim(s);
    if t != "" {
      assert t[0] == TrimStart(s)[0];
    }
  }

  function LowerChar(c: char): char {
    if 'A' <= c <= 'Z' then c + 'a' - 'A' else c
  }

  /** ASCII lower case; other letters are left alone. */
  function Lower(s: string): (r: string)
    ensures |r| == |s|
  {
    Map(LowerChar, s)
  }

  lemma LowerLeavesLower(s: string)
    requires forall i :: 0 <= i < |s| ==> !('A' <= s[i] <= 'Z')
    ensures Lower(s) == s
  {
  }

  predicate Contains(s: string, part: string) {
    exists i :: 0 <= i <= |s| && part <= s[i..]
  }

  /** The order of strings by code point. */
  predicate AtMost(a: string, b: string) {
    if a == "" then true
    else if b == "" then false
    else if a[0] == b[0] then AtMost(a[1..], b[1..])
    else a[0] < b[0]
  }

  lemma {:induction false} AtMostTotal(a: string, b: string)
    ensures AtMost(a, b) || AtMost(b, a)
    ensures AtMost(a, b) && AtMost(b, a) ==> a == b
  {
    if a != "" && b != "" {
      AtMostTotal(a[1..], b[1..]);
      assert a == [a[0]] + a[1..] && b == [b[0]] + b[1..];
    }
  }

  lemma {:induction false} AtMostTransitive(a: string, b: string, c: string)
    requires AtMost(a, b) && AtMost(b, c)
    ensures AtMost(a, c)
  {
    if a != "" && a[0] == b[0] == c[0] {
      AtMostTransitive(a[1..], b[1..], c[1..]);
    }
  }

  lemma AtMostIsTotalPreorder()
    ensures TotalPreorder(AtMost)
  {
    forall a, b
      ensures AtMost(a, b) || AtMost(b, a)
    {
      AtMostTotal(a, b);
    }
    forall a, b, c | AtMost(a, b) && AtMost(b, c)
      ensures AtMost(a, c)
    {
      AtMostTransitive(a, b, c);
    }
  }
}
