/** The pieces of Go's `strings` package the translation uses: ToLower,
    ToUpper (on ASCII letters) and Split around a one-character separator. */
module Text {

  predicate IsUpperAscii(c: char) { 'A' <= c <= 'Z' }

  predicate IsLowerAscii(c: char) { 'a' <= c <= 'z' }

  function LowerChar(c: char): (r: char)
    ensures IsUpperAscii(c) ==> IsLowerAscii(r)
    ensures !IsUpperAscii(c) ==> r == c
  {
    if IsUpperAscii(c) then (c as int + 32) as char else c
  }

  function UpperChar(c: char): (r: char)
    ensures IsLowerAscii(c) ==> IsUpperAscii(r)
    ensures !IsLowerAscii(c) ==> r == c
  {
    if IsLowerAscii(c) then (c as int - 32) as char else c
  }

  /** strings.ToLower, letter by letter. */
  function Lower(s: string): (r: string)
    ensures |r| == |s|
    ensures forall i :: 0 <= i < |s| ==> r[i] == LowerChar(s[i])
  {
    if s == [] then [] else [LowerChar(s[0])] + Lower(s[1..])
  }

  /** strings.ToUpper, letter by letter. */
  function Upper(s: string): (r: string)
    ensures |r| == |s|
    ensures forall i :: 0 <= i < |s| ==> r[i] == UpperChar(s[i])
  {
    if s == [] then [] else [UpperChar(s[0])] + Upper(s[1..])
  }

  /** Upper-casing first loses nothing that lower-casing would keep: the two
      spellings of a word compare equal after ToLower. */
  lemma LowerOfUpper(s: string)
    ensures Lower(Upper(s)) == Lower(s)
  {
    var a, b := Lower(Upper(s)), Lower(s);
    forall i | 0 <= i < |s| ensures a[i] == b[i] {
      var c := s[i];
      if IsLowerAscii(c) {
        assert UpperChar(c) as int == c as int - 32;
      }
    }
  }

  /** Index of the first `sep` in `s`, or |s| when there is none. */
  function IndexOf(s: string, sep: char): (k: nat)
    ensures k <= |s|
    ensures k < |s| ==> s[k] == sep
    ensures forall i :: 0 <= i < k ==> s[i] != sep
  {
    if s == [] then 0
    else if s[0] == sep then 0
    else 1 + IndexOf(s[1..], sep)
  }

  /** The separator is found exactly when it occurs. */
  lemma IndexOfFinds(s: string, sep: char)
    ensures IndexOf(s, sep) < |s| <==> sep in s
  {
    var k := IndexOf(s, sep);
    if sep in s {
      var j :| 0 <= j < |s| && s[j] == sep;
      assert k <= j;
    }
  }

  /** The inverse of Split: the pieces glued back with the separator. */
  function Join(parts: seq<string>, sep: char): string
    requires |parts| >= 1
  {
    if |parts| == 1 then parts[0] else parts[0] + [sep] + Join(parts[1..], sep)
  }

  /** strings.Split(s, sep): the pieces of `s` around every `sep`; there is
      always at least one piece, and "" splits into [""]. */
  function Split(s: string, sep: char): (parts: seq<string>)
    ensures |parts| >= 1
    ensures forall i :: 0 <= i < |parts| ==> sep !in parts[i]
    ensures parts[0] == s[..IndexOf(s, sep)]
    decreases |s|
  {
    var k := IndexOf(s, sep);
    if k == |s| then
      assert s[..k] == s;
      [s]
    else
      var head, tail := s[..k], s[k + 1..];
      var rest := Split(tail, sep);
      assert sep !in head;
      assert sep in s by { assert s[k] == sep; }
      var parts := [head] + rest;
      assert parts[1..] == rest;
      assert forall i :: 1 <= i < |parts| ==> parts[i] == rest[i - 1];
      parts
  }

  /** Split loses nothing: joining its pieces with the separator gives back
      the original string. */
  lemma {:induction false} JoinSplit(s: string, sep: char)
    ensures Join(Split(s, sep), sep) == s
    decreases |s|
  {
    var k := IndexOf(s, sep);
    var parts := Split(s, sep);
    if k < |s| {
      var tail := s[k + 1..];
      var rest := Split(tail, sep);
      assert parts == [s[..k]] + rest;
      assert |parts| > 1;
      JoinSplit(tail, sep);
      assert parts[1..] == rest;
      calc {
        Join(parts, sep);
        parts[0] + [sep] + Join(parts[1..], sep);
        s[..k] + [sep] + tail;
        { assert s == s[..k] + [sep] + tail; }
        s;
      }
    } else {
      assert parts == [s];
    }
  }

  /** Split yields more than one piece exactly when the separator occurs. */
  lemma SplitSeveral(s: string, sep: char)
    ensures |Split(s, sep)| > 1 <==> sep in s
  {
    IndexOfFinds(s, sep);
  }

  /** With the separator present, the second piece runs from just after its
      first occurrence up to the next one (or the end). */
  lemma SplitSecond(s: string, sep: char)
    ensures sep in s ==>
      var k := IndexOf(s, sep);
      && k < |s|
      && |Split(s, sep)| > 1
      && Split(s, sep)[1] == s[k + 1..][..IndexOf(s[k + 1..], sep)]
  {
    IndexOfFinds(s, sep);
  }
}
