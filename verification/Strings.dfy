/** The few string operations that several modules share. */
module Strings {
  function IndexOf(s: string, c: char): (n: nat)
    ensures n <= |s|
    ensures forall i | 0 <= i < n :: s[i] != c
    ensures n < |s| ==> s[n] == c
  {
    if s == "" || s[0] == c then 0 else 1 + IndexOf(s[1..], c)
  }

  lemma IndexIs(s: string, c: char, n: nat)
    requires n < |s| && s[n] == c && forall i | 0 <= i < n :: s[i] != c
    ensures IndexOf(s, c) == n
  {
  }

  /** strings.Split for a separator of one character. */
  function Split(s: string, sep: char): (parts: seq<string>)
    ensures parts != []
    decreases |s|
  {
    var n := IndexOf(s, sep);
    if n == |s| then [s] else [s[..n]] + Split(s[n + 1..], sep)
  }

  /** strings.Join. */
  function Join(parts: seq<string>, sep: char): string {
    if parts == [] then ""
    else if |parts| == 1 then parts[0]
    else parts[0] + [sep] + Join(parts[1..], sep)
  }

  /** A string without the separator is its one part; otherwise what is before the first one is the first part. */
  lemma SplitFirst(first: string, rest: string, sep: char)
    requires sep !in first
    ensures Split(first, sep) == [first]
    ensures Split(first + [sep] + rest, sep) == [first] + Split(rest, sep)
  {
    var s := first + [sep] + rest;
    assert forall i | 0 <= i < |first| :: first[i] in first;
    forall i | 0 <= i < |first| ensures s[i] != sep {
      assert s[i] == first[i];
    }
    IndexIs(s, sep, |first|);
    assert s[..|first|] == first && s[|first| + 1..] == rest;
  }

  /** The parts with the separator between them. */
  lemma JoinFirst(first: string, rest: seq<string>, sep: char)
    ensures Join([], sep) == "" && Join([first], sep) == first
    ensures rest != [] ==> Join([first] + rest, sep) == first + [sep] + Join(rest, sep)
  {
    assert rest != [] ==> ([first] + rest)[1..] == rest;
  }
}
