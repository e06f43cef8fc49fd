/**
 The push filter of a CI workflow (internal/ci/triggers.go): branch globs by way of regular
 expressions, and the reading of the `on:` key.

 Strings are sequences of code points. A pattern that is not valid UTF-8 is not part of this
 model.
 */
module Triggers {
  import opened Wrappers

  // ---------- The glob language ----------

  datatype Token = Star | DoubleStar | Lit(c: char)

  /** Stars pair from left to right; everything else stands for itself. */
  function Tokens(pattern: string): seq<Token> {
    if pattern == "" then []
    else if pattern[0] != '*' then [Lit(pattern[0])] + Tokens(pattern[1..])
    else if |pattern| > 1 && pattern[1] == '*' then [DoubleStar] + Tokens(pattern[2..])
    else [Star] + Tokens(pattern[1..])
  }

  /** newlines: whether `**` takes newlines too. */
  predicate Takes(t: Token, part: string, newlines: bool) {
    match t
    case Lit(c) => part == [c]
    case Star => '/' !in part
    case DoubleStar => newlines || '\n' !in part
  }

  /**
   The name is cut into one part for each token: `*` stays in a segment, `**` crosses segments.
   As documented, `**` takes any character; in the code, all but newlines.
   */
  ghost predicate InGlob(tokens: seq<Token>, name: string, newlines: bool) {
    if tokens == [] then name == ""
    else
      exists k | 0 <= k <= |name| ::
        Takes(tokens[0], name[..k], newlines) && InGlob(tokens[1..], name[k..], newlines)
  }

  /** Newlines aside, the two languages are the same; and the code never accepts more. */
  lemma {:induction false} NewlinesDecide(tokens: seq<Token>, name: string)
    ensures InGlob(tokens, name, false) ==> InGlob(tokens, name, true)
    ensures '\n' !in name ==> (InGlob(tokens, name, true) <==> InGlob(tokens, name, false))
    decreases |tokens|
  {
    if tokens != [] {
      forall k | 0 <= k <= |name|
        ensures InGlob(tokens[1..], name[k..], false) ==> InGlob(tokens[1..], name[k..], true)
        ensures '\n' !in name ==> (InGlob(tokens[1..], name[k..], true) <==> InGlob(tokens[1..], name[k..], false))
        ensures Takes(tokens[0], name[..k], false) ==> Takes(tokens[0], name[..k], true)
        ensures '\n' !in name ==> (Takes(tokens[0], name[..k], true) <==> Takes(tokens[0], name[..k], false))
      {
        assert '\n' !in name ==> '\n' !in name[k..] && '\n' !in name[..k];
        NewlinesDecide(tokens[1..], name[k..]);
      }
    }
  }

  // ---------- Patterns, read from left to right ----------

  lemma {:induction false} FreeStart(a: string, p: string, name: string, newlines: bool)
    requires '*' !in a
    ensures InGlob(Tokens(a + p), name, newlines) <==> a <= name && InGlob(Tokens(p), name[|a|..], newlines)
  {
    if a == "" {
      assert a + p == p && name[0..] == name;
    } else {
      var tokens := Tokens(a + p);
      assert a[0] in a && (a + p)[1..] == a[1..] + p;
      assert tokens == [Lit(a[0])] + Tokens(a[1..] + p) && tokens[1..] == Tokens(a[1..] + p);
      if name != "" {
        FreeStart(a[1..], p, name[1..], newlines);
        assert |a| <= |name| ==> name[1..][|a[1..]|..] == name[|a|..];
        assert a <= name <==> name[..1] == [a[0]] && a[1..] <= name[1..];
      }
      forall k | 0 <= k <= |name| && Takes(tokens[0], name[..k], newlines) ensures k == 1 {
        assert |name[..k]| == 1;
      }
    }
  }

  /** A pattern without a star is the one name that it spells. */
  lemma FreePattern(pattern: string, name: string, newlines: bool)
    requires '*' !in pattern
    ensures InGlob(Tokens(pattern), name, newlines) <==> name == pattern
  {
    FreeStart(pattern, "", name, newlines);
    assert pattern + "" == pattern;
    if pattern <= name && name[|pattern|..] == "" {
      assert name == pattern + name[|pattern|..];
    }
  }

  /** A star stands for characters other than a slash; what follows it is a pattern by itself. */
  lemma FirstStar(a: string, p: string, name: string, newlines: bool)
    requires '*' !in a && (p == "" || p[0] != '*')
    ensures InGlob(Tokens(a + "*" + p), name, newlines) <==>
            exists m, rest :: name == a + m + rest && '/' !in m && InGlob(Tokens(p), rest, newlines)
  {
    assert a + "*" + p == a + ("*" + p) && ("*" + p)[1..] == p;
    FreeStart(a, "*" + p, name, newlines);
    assert Tokens("*" + p) == [Star] + Tokens(p) && Tokens("*" + p)[1..] == Tokens(p);
    FirstTakes(a, "*" + p, Star, p, name, newlines);
  }

  /** Two stars stand for any characters, but newlines in the code. */
  lemma FirstDoubleStar(a: string, p: string, name: string, newlines: bool)
    requires '*' !in a
    ensures InGlob(Tokens(a + "**" + p), name, newlines) <==>
            exists m, rest ::
              name == a + m + rest && (newlines || '\n' !in m) && InGlob(Tokens(p), rest, newlines)
  {
    assert a + "**" + p == a + ("**" + p) && ("**" + p)[2..] == p;
    FreeStart(a, "**" + p, name, newlines);
    assert Tokens("**" + p) == [DoubleStar] + Tokens(p) && Tokens("**" + p)[1..] == Tokens(p);
    FirstTakes(a, "**" + p, DoubleStar, p, name, newlines);
  }

  lemma Prepended(a: string, tail: string)
    ensures a <= a + tail && (a + tail)[|a|..] == tail
  {
  }

  lemma TakenApart(starred: string, t: Token, p: string, tail: string, newlines: bool) returns (m: string, rest: string)
    requires Tokens(starred) == [t] + Tokens(p) && Tokens(starred)[1..] == Tokens(p)
    requires InGlob(Tokens(starred), tail, newlines)
    ensures tail == m + rest && Takes(t, m, newlines) && InGlob(Tokens(p), rest, newlines)
  {
    var k :| 0 <= k <= |tail| && Takes(t, tail[..k], newlines) && InGlob(Tokens(p), tail[k..], newlines);
    m, rest := tail[..k], tail[k..];
  }

  lemma TakenFirst(starred: string, t: Token, p: string, m: string, rest: string, newlines: bool)
    requires Tokens(starred) == [t] + Tokens(p) && Tokens(starred)[1..] == Tokens(p)
    requires Takes(t, m, newlines) && InGlob(Tokens(p), rest, newlines)
    ensures InGlob(Tokens(starred), m + rest, newlines)
  {
    var tail := m + rest;
    assert tail[..|m|] == m && tail[|m|..] == rest;
  }

  lemma TakenAfter(
    a: string, starred: string, t: Token, p: string, m: string, rest: string, newlines: bool)
    requires Tokens(starred) == [t] + Tokens(p) && Tokens(starred)[1..] == Tokens(p)
    requires Takes(t, m, newlines) && InGlob(Tokens(p), rest, newlines)
    ensures a <= a + m + rest && InGlob(Tokens(starred), (a + m + rest)[|a|..], newlines)
  {
    assert a + m + rest == a + (m + rest);
    Prepended(a, m + rest);
    assert (a + m + rest)[|a|..] == m + rest;
    TakenFirst(starred, t, p, m, rest, newlines);
  }

  lemma FirstTakes(a: string, starred: string, t: Token, p: string, name: string, newlines: bool)
    requires Tokens(starred) == [t] + Tokens(p) && Tokens(starred)[1..] == Tokens(p)
    ensures a <= name && InGlob(Tokens(starred), name[|a|..], newlines) <==>
            exists m, rest :: name == a + m + rest && Takes(t, m, newlines) && InGlob(Tokens(p), rest, newlines)
  {
    if a <= name && InGlob(Tokens(starred), name[|a|..], newlines) {
      var m, rest := TakenApart(starred, t, p, name[|a|..], newlines);
      assert name == a + m + rest && Takes(t, m, newlines) && InGlob(Tokens(p), rest, newlines);
    }
    if m, rest :| name == a + m + rest && Takes(t, m, newlines) && InGlob(Tokens(p), rest, newlines) {
      TakenAfter(a, starred, t, p, m, rest, newlines);
    }
  }

  /** Every pattern has one of the three forms, so the three lemmas say what it accepts. */
  lemma {:induction false} PatternForms(pattern: string) returns (a: string, p: string)
    ensures '*' !in a
    ensures
      || (pattern == a && p == "")
      || pattern == a + "**" + p
      || (pattern == a + "*" + p && (p == "" || p[0] != '*'))
  {
    if pattern == "" {
      a, p := "", "";
    } else if pattern[0] != '*' {
      a, p := PatternForms(pattern[1..]);
      assert pattern == [pattern[0]] + pattern[1..];
      var c := [pattern[0]];
      assert c + (a + "**" + p) == c + a + "**" + p && c + (a + "*" + p) == c + a + "*" + p;
      a := c + a;
    } else if |pattern| > 1 && pattern[1] == '*' {
      a, p := "", pattern[2..];
      assert pattern == "" + "**" + p;
    } else {
      a, p := "", pattern[1..];
      assert pattern == "" + "*" + p;
    }
  }

  lemma OneTakes(a: string, starred: string, t: Token, b: string, name: string, newlines: bool)
    requires '*' !in b && Tokens(starred) == [t] + Tokens(b) && Tokens(starred)[1..] == Tokens(b)
    ensures a <= name && InGlob(Tokens(starred), name[|a|..], newlines) <==>
            exists m :: name == a + m + b && Takes(t, m, newlines)
  {
    if a <= name && InGlob(Tokens(starred), name[|a|..], newlines) {
      var m, rest := TakenApart(starred, t, b, name[|a|..], newlines);
      FreePattern(b, rest, newlines);
      assert name == a + m + b && Takes(t, m, newlines);
    }
    if m :| name == a + m + b && Takes(t, m, newlines) {
      FreePattern(b, b, newlines);
      TakenAfter(a, starred, t, b, m, b, newlines);
    }
  }

  /** What a pattern with one star accepts. */
  lemma OneStar(a: string, b: string, name: string)
    requires '*' !in a && '*' !in b
    ensures InGlob(Tokens(a + "*" + b), name, false) <==> exists m :: '/' !in m && name == a + m + b
  {
    assert a + "*" + b == a + ("*" + b) && ("*" + b)[1..] == b;
    assert b != "" ==> b[0] in b;
    FreeStart(a, "*" + b, name, false);
    assert Tokens("*" + b) == [Star] + Tokens(b) && Tokens("*" + b)[1..] == Tokens(b);
    OneTakes(a, "*" + b, Star, b, name, false);
    assert forall m :: Takes(Star, m, false) <==> '/' !in m;
  }

  /** And one with a double star. */
  lemma OneDoubleStar(a: string, b: string, name: string)
    requires '*' !in a && '*' !in b
    ensures InGlob(Tokens(a + "**" + b), name, false) <==> exists m :: '\n' !in m && name == a + m + b
  {
    assert a + "**" + b == a + ("**" + b) && ("**" + b)[2..] == b;
    FreeStart(a, "**" + b, name, false);
    assert Tokens("**" + b) == [DoubleStar] + Tokens(b) && Tokens("**" + b)[1..] == Tokens(b);
    OneTakes(a, "**" + b, DoubleStar, b, name, false);
    assert forall m :: Takes(DoubleStar, m, false) <==> '\n' !in m;
  }

  // ---------- Regular expressions ----------

  /** One character: a literal, `.` (which is no newline), or `[^/]` (which may be one). */
  datatype Class = Exactly(c: char) | Dot | NotSlash

  datatype Item = Begin | End | One(chars: Class) | Many(chars: Class)

  const SPECIAL := "\\.+*?()|[]{}^$"

  function QuoteMeta(c: char): string {
    if c in SPECIAL then ['\\', c] else [c]
  }

  /** The part of the regular-expression syntax of Go's regexp/syntax that patterns are built from. */
  function ParseAtom(text: string): (r: Option<(Item, string)>)
    requires text != ""
    ensures r.Some? ==> |r.value.1| < |text|
  {
    var c := text[0];
    if c == '^' then Some((Begin, text[1..]))
    else if c == '$' then Some((End, text[1..]))
    else if c == '.' then Some((One(Dot), text[1..]))
    else if c == '\\' then
      if |text| > 1 && text[1] in SPECIAL then Some((One(Exactly(text[1])), text[2..])) else None
    else if "[^/]" <= text then Some((One(NotSlash), text[4..]))
    else if c in SPECIAL then None
    else Some((One(Exactly(c)), text[1..]))
  }

  function Parse(text: string): Option<seq<Item>>
    decreases |text|
  {
    if text == "" then Some([])
    else
      match ParseAtom(text)
      case None => None
      case Some((atom, rest)) =>
        var starred := atom.One? && rest != "" && rest[0] == '*';
        match Parse(if starred then rest[1..] else rest)
        case None => None
        case Some(items) => Some([if starred then Many(atom.chars) else atom] + items)
  }

  predicate InClass(chars: Class, c: char) {
    match chars
    case Exactly(d) => c == d
    case Dot => c != '\n'
    case NotSlash => c != '/'
  }

  /** The item matches name[p..q]. */
  predicate Spans(item: Item, name: string, p: nat, q: nat)
    requires p <= q <= |name|
  {
    match item
    case Begin => p == q == 0
    case End => p == q == |name|
    case One(chars) => q == p + 1 && InClass(chars, name[p])
    case Many(chars) => forall i | p <= i < q :: InClass(chars, name[i])
  }

  ghost predicate MatchesFrom(items: seq<Item>, name: string, p: nat)
    requires p <= |name|
  {
    items == [] || exists q | p <= q <= |name| :: Spans(items[0], name, p, q) && MatchesFrom(items[1..], name, q)
  }

  /** Regexp.MatchString: a match anywhere in the name. */
  ghost predicate MatchString(items: seq<Item>, name: string) {
    exists p | 0 <= p <= |name| :: MatchesFrom(items, name, p)
  }

  // ---------- The compiled pattern ----------

  function Piece(t: Token): string {
    match t
    case Star => "[^/]*"
    case DoubleStar => ".*"
    case Lit(c) => QuoteMeta(c)
  }

  function Pieces(tokens: seq<Token>): string {
    if tokens == [] then "" else Piece(tokens[0]) + Pieces(tokens[1..])
  }

  function ItemOf(t: Token): Item {
    match t
    case Star => Many(NotSlash)
    case DoubleStar => Many(Dot)
    case Lit(c) => One(Exactly(c))
  }

  function Items(tokens: seq<Token>): (r: seq<Item>)
    ensures |r| == |tokens|
  {
    seq(|tokens|, i requires 0 <= i < |tokens| => ItemOf(tokens[i]))
  }

  function RegexpText(pattern: string): string {
    "^" + Pieces(Tokens(pattern)) + "$"
  }

  lemma {:induction false} ParsePiece(t: Token, rest: string)
    requires rest != "" && rest[0] != '*'
    ensures Parse(Piece(t) + rest) ==
            match Parse(rest) { case None => None case Some(items) => Some([ItemOf(t)] + items) }
  {
    var text := Piece(t) + rest;
    match t
    case Star =>
      assert text[4..] == "*" + rest && ("*" + rest)[1..] == rest;
      assert text[..4] == "[^/]";
    case DoubleStar =>
      assert text[1..] == "*" + rest && ("*" + rest)[1..] == rest;
    case Lit(c) =>
      assert c in SPECIAL ==> text[0] == '\\' && text[1] == c && text[2..] == rest;
      assert c !in SPECIAL ==> text[0] == c && text[1..] == rest;
      assert "[^/]" <= text ==> text[0] == '[';
  }

  lemma PiecesStart(tokens: seq<Token>)
    ensures (Pieces(tokens) + "$")[0] != '*'
  {
    if tokens != [] {
      assert Pieces(tokens)[0] == Piece(tokens[0])[0];
    }
  }

  lemma PiecesCons(tokens: seq<Token>)
    requires tokens != []
    ensures Pieces(tokens) + "$" == Piece(tokens[0]) + (Pieces(tokens[1..]) + "$")
    ensures [ItemOf(tokens[0])] + (Items(tokens[1..]) + [End]) == Items(tokens) + [End]
  {
  }

  lemma ParseEnd()
    ensures Pieces([]) + "$" == "$" && Parse("$") == Some([End])
  {
    assert "$"[1..] == "";
    assert ParseAtom("$") == Some((End, ""));
    assert Parse("") == Some([]);
    assert [End] + [] == [End];
  }

  lemma {:induction false} ParsePieces(tokens: seq<Token>)
    ensures Parse(Pieces(tokens) + "$") == Some(Items(tokens) + [End])
  {
    if tokens == [] {
      ParseEnd();
      assert Items(tokens) + [End] == [End];
    } else {
      var rest := Pieces(tokens[1..]) + "$";
      PiecesCons(tokens);
      PiecesStart(tokens[1..]);
      ParsePiece(tokens[0], rest);
      ParsePieces(tokens[1..]);
    }
  }

  /** Every pattern compiles, to the anchored items of its tokens: nothing is lost in the text. */
  lemma PatternCompiles(pattern: string)
    ensures Parse(RegexpText(pattern)) == Some([Begin] + Items(Tokens(pattern)) + [End])
  {
    var rest := Pieces(Tokens(pattern)) + "$";
    assert RegexpText(pattern) == "^" + rest;
    assert ("^" + rest)[1..] == rest;
    ParsePieces(Tokens(pattern));
    assert ParseAtom("^" + rest) == Some((Begin, rest));
    assert [Begin] + (Items(Tokens(pattern)) + [End]) == [Begin] + Items(Tokens(pattern)) + [End];
  }

  // ---------- Glob and regular expression agree ----------

  /** An item spans exactly what its token takes. */
  lemma {:induction false} SpansIsTakes(t: Token, name: string, p: nat, q: nat)
    requires p <= q <= |name|
    ensures Spans(ItemOf(t), name, p, q) <==> Takes(t, name[p..q], false)
  {
    var part := name[p..q];
    assert forall i | p <= i < q :: name[i] == part[i - p];
    assert forall i | 0 <= i < |part| :: part[i] == name[p + i];
  }

  /** For every name: the items match from a position exactly when the rest of the name is in the language. */
  lemma {:induction false} ItemsMatchGlob(tokens: seq<Token>, name: string, p: nat)
    requires p <= |name|
    ensures MatchesFrom(Items(tokens) + [End], name, p) <==> InGlob(tokens, name[p..], false)
    decreases |tokens|
  {
    var items, rest := Items(tokens) + [End], name[p..];
    if tokens == [] {
      assert items[0] == End && items[1..] == [];
      assert p == |name| ==> Spans(items[0], name, p, p) && MatchesFrom(items[1..], name, p);
    } else {
      assert items[0] == ItemOf(tokens[0]) && items[1..] == Items(tokens[1..]) + [End];
      forall q: nat | p <= q <= |name|
        ensures Spans(items[0], name, p, q) && MatchesFrom(items[1..], name, q) <==>
                Takes(tokens[0], rest[..q - p], false) && InGlob(tokens[1..], rest[q - p..], false)
      {
        assert rest[..q - p] == name[p..q] && rest[q - p..] == name[q..];
        SpansIsTakes(tokens[0], name, p, q);
        ItemsMatchGlob(tokens[1..], name, q);
      }
      FirstItemIffToken(tokens, items, name, p);
    }
  }

  lemma {:induction false} FirstItemIffToken(tokens: seq<Token>, items: seq<Item>, name: string, p: nat)
    requires tokens != [] && items != [] && p <= |name|
    requires forall q: nat | p <= q <= |name| ::
               Spans(items[0], name, p, q) && MatchesFrom(items[1..], name, q) <==>
               Takes(tokens[0], name[p..][..q - p], false) && InGlob(tokens[1..], name[p..][q - p..], false)
    ensures MatchesFrom(items, name, p) <==> InGlob(tokens, name[p..], false)
  {
    var rest := name[p..];
    if InGlob(tokens, rest, false) {
      var k: nat :| k <= |rest| && Takes(tokens[0], rest[..k], false) && InGlob(tokens[1..], rest[k..], false);
      assert k == p + k - p;
      assert Spans(items[0], name, p, p + k) && MatchesFrom(items[1..], name, p + k);
    }
    if MatchesFrom(items, name, p) {
      var q: nat :| p <= q <= |name| && Spans(items[0], name, p, q) && MatchesFrom(items[1..], name, q);
      assert Takes(tokens[0], rest[..q - p], false) && InGlob(tokens[1..], rest[q - p..], false);
    }
  }

  /**
   For every name, the compiled pattern accepts exactly the language in which `**` stops at
   newlines. So it never accepts a name outside the documented language, and for a name without
   a newline, which is every branch name that git admits, the answer is as documented.
   */
  lemma {:induction false} CompiledIsGlob(pattern: string, name: string)
    ensures
      var tokens := Tokens(pattern);
      var matched := MatchString([Begin] + Items(tokens) + [End], name);
      && (matched <==> InGlob(tokens, name, false))
      && (matched ==> InGlob(tokens, name, true))
      && ('\n' !in name ==> (matched <==> InGlob(tokens, name, true)))
  {
    var rest := Items(Tokens(pattern)) + [End];
    var items := [Begin] + Items(Tokens(pattern)) + [End];
    assert items == [Begin] + rest && items[1..] == rest;
    ItemsMatchGlob(Tokens(pattern), name, 0);
    NewlinesDecide(Tokens(pattern), name);
    assert name[0..] == name;
    if MatchesFrom(rest, name, 0) {
      assert Spans(items[0], name, 0, 0) && MatchesFrom(items[1..], name, 0);
      assert MatchesFrom(items, name, 0);
    }
  }

  /** A newline is where `**` departs from its documentation: `.` does not match it. */
  lemma DoubleStarStopsAtNewline()
    ensures InGlob(Tokens("**"), "\n", true) && !InGlob(Tokens("**"), "\n", false)
    ensures !MatchString([Begin] + Items(Tokens("**")) + [End], "\n")
  {
    assert "**"[2..] == "" && Tokens("") == [];
    assert Tokens("**") == [DoubleStar];
    assert Tokens("**")[1..] == [] && "\n"[1..] == "" && "\n"[..1] == "\n" && "\n"[0..] == "\n";
    assert Takes(DoubleStar, "\n"[..1], true) && InGlob(Tokens("**")[1..], "\n"[1..], true);
    assert !Takes(DoubleStar, "\n"[..1], false) by {
      assert "\n"[0] == '\n';
    }
    forall k | 0 <= k <= 1 ensures !(Takes(DoubleStar, "\n"[..k], false) && InGlob([], "\n"[k..], false)) {
    }
    CompiledIsGlob("**", "\n");
  }

  // ---------- The code ----------

  /** Runs the items from the last to the first, with all positions from which the rest matches. */
  method RunItems(items: seq<Item>, name: string) returns (matched: bool)
    ensures matched <==> MatchString(items, name)
  {
    var from := seq(|name| + 1, _ => true);
    var i := |items|;
    while i > 0
      invariant 0 <= i <= |items| && |from| == |name| + 1
      invariant forall p: nat | p <= |name| :: from[p] <==> MatchesFrom(items[i..], name, p)
    {
      i := i - 1;
      assert items[i..][1..] == items[i + 1..];
      var next := from;
      from := seq(|name| + 1, p requires 0 <= p <= |name| =>
        exists q | p <= q <= |name| :: next[q] && Spans(items[i], name, p, q));
    }
    assert items[0..] == items;
    return exists p | 0 <= p <= |name| :: from[p];
  }

  /** How much of the rest of a pattern its first token takes. */
  function Width(rest: string): (n: nat)
    requires rest != ""
    ensures n <= |rest|
  {
    if rest[0] == '*' && |rest| > 1 && rest[1] == '*' then 2 else 1
  }

  lemma {:induction false} FirstPiece(before: string, rest: string)
    requires rest != ""
    ensures before + Pieces(Tokens(rest)) == before + Piece(Tokens(rest)[0]) + Pieces(Tokens(rest[Width(rest)..]))
  {
    assert Tokens(rest)[1..] == Tokens(rest[Width(rest)..]);
  }

  lemma KnownPatterns(pattern: string, name: string)
    ensures '*' !in pattern ==> (InGlob(Tokens(pattern), name, false) <==> name == pattern)
    ensures forall a, b | '*' !in a && '*' !in b && pattern == a + "*" + b ::
              InGlob(Tokens(pattern), name, false) <==> exists m :: '/' !in m && name == a + m + b
    ensures forall a, b | '*' !in a && '*' !in b && pattern == a + "**" + b ::
              InGlob(Tokens(pattern), name, false) <==> exists m :: '\n' !in m && name == a + m + b
  {
    if '*' !in pattern {
      FreePattern(pattern, name, false);
    }
    forall a, b | '*' !in a && '*' !in b && pattern == a + "*" + b
      ensures InGlob(Tokens(pattern), name, false) <==> exists m :: '/' !in m && name == a + m + b
    {
      OneStar(a, b, name);
    }
    forall a, b | '*' !in a && '*' !in b && pattern == a + "**" + b
      ensures InGlob(Tokens(pattern), name, false) <==> exists m :: '\n' !in m && name == a + m + b
    {
      OneDoubleStar(a, b, name);
    }
  }

  method GlobMatch(pattern: string, name: string) returns (matched: bool)
    ensures matched <==> InGlob(Tokens(pattern), name, false)
    ensures '*' !in pattern ==> (matched <==> name == pattern)
    ensures forall a, b | '*' !in a && '*' !in b && pattern == a + "*" + b ::
              matched <==> exists m :: '/' !in m && name == a + m + b
    ensures forall a, b | '*' !in a && '*' !in b && pattern == a + "**" + b ::
              matched <==> exists m :: '\n' !in m && name == a + m + b
  {
    KnownPatterns(pattern, name);
    var b := "^";
    var i := 0;
    while i < |pattern|
      invariant 0 <= i <= |pattern|
      invariant b + Pieces(Tokens(pattern[i..])) == "^" + Pieces(Tokens(pattern))
    {
      FirstPiece(b, pattern[i..]);
      assert pattern[i..][Width(pattern[i..])..] == pattern[i + Width(pattern[i..])..];
      if pattern[i] == '*' {
        if i + 1 < |pattern| && pattern[i + 1] == '*' {
          b := b + ".*";
          i := i + 1;
        } else {
          b := b + "[^/]*";
        }
      } else {
        b := b + QuoteMeta(pattern[i]);
      }
      i := i + 1;
    }
    assert pattern[i..] == "" && b + "" == b;
    b := b + "$";
    assert b == RegexpText(pattern);
    PatternCompiles(pattern);
    CompiledIsGlob(pattern, name);
    match Parse(b)
    case None => matched := pattern == name;
    case Some(items) => matched := RunItems(items, name);
  }

  ghost predicate AnyGlob(patterns: seq<string>, name: string, newlines: bool) {
    exists p <- patterns :: InGlob(Tokens(p), name, newlines)
  }

  lemma NewlinesDecideAny(patterns: seq<string>, name: string)
    requires '\n' !in name
    ensures AnyGlob(patterns, name, true) <==> AnyGlob(patterns, name, false)
  {
    forall p <- patterns ensures InGlob(Tokens(p), name, true) <==> InGlob(Tokens(p), name, false) {
      NewlinesDecide(Tokens(p), name);
    }
  }

  method AnyGlobMatch(patterns: seq<string>, name: string) returns (any: bool)
    ensures any <==> AnyGlob(patterns, name, false)
  {
    for i := 0 to |patterns|
      invariant forall j | 0 <= j < i :: !InGlob(Tokens(patterns[j]), name, false)
    {
      var matched := GlobMatch(patterns[i], name);
      if matched {
        return true;
      }
    }
    return false;
  }

  datatype PushTrigger = PushTrigger(reacts: bool, branches: seq<string>, branchesIgnore: seq<string>)

  const NO_TRIGGER := PushTrigger(false, [], [])

  /** Reacts to push, is allowed if there is an allow-list, is not ignored. */
  ghost predicate Reacts(t: PushTrigger, branch: string, newlines: bool) {
    && t.reacts
    && (t.branches == [] || AnyGlob(t.branches, branch, newlines))
    && !AnyGlob(t.branchesIgnore, branch, newlines)
  }

  /** The documented rule, for a branch without a newline as documented. */
  method Matches(t: PushTrigger, branch: string) returns (r: bool)
    ensures r <==> Reacts(t, branch, false)
    ensures r <==>
            && t.reacts
            && (t.branches == [] || exists p <- t.branches :: InGlob(Tokens(p), branch, false))
            && !exists p <- t.branchesIgnore :: InGlob(Tokens(p), branch, false)
    ensures '\n' !in branch ==> (r <==> Reacts(t, branch, true))
  {
    if '\n' !in branch {
      NewlinesDecideAny(t.branches, branch);
      NewlinesDecideAny(t.branchesIgnore, branch);
    }
    if !t.reacts {
      return false;
    }
    if |t.branches| > 0 {
      var allowed := AnyGlobMatch(t.branches, branch);
      if !allowed {
        return false;
      }
    }
    if |t.branchesIgnore| > 0 {
      var ignored := AnyGlobMatch(t.branchesIgnore, branch);
      if ignored {
        return false;
      }
    }
    return true;
  }

  // ---------- Reading `on:` ----------

  datatype Kind = NoNode | ScalarNode | SequenceNode | MappingNode | AliasNode

  /** A parsed YAML node. A mapping alternates keys and values. */
  datatype Node = Node(kind: Kind, value: string, content: seq<Node>)

  /** i is where the first value of this key stands. */
  predicate FirstKey(content: seq<Node>, key: string, i: nat) {
    && i % 2 == 0 && i + 1 < |content| && content[i].value == key
    && forall j | 0 <= j < i && j % 2 == 0 :: content[j].value != key
  }

  ghost predicate HasKey(content: seq<Node>, key: string) {
    exists i: nat | i % 2 == 0 && i + 1 < |content| :: content[i].value == key
  }

  function Scalars(content: seq<Node>): seq<string> {
    if content == [] then []
    else
      var e := content[|content| - 1];
      Scalars(content[..|content| - 1]) + if e.kind.ScalarNode? then [e.value] else []
  }

  /** A filter is written as one name, or as a list, of which only the scalars count. */
  function FilterOf(n: Option<Node>): seq<string> {
    if n.None? then []
    else if n.value.kind.ScalarNode? then [n.value.value]
    else if n.value.kind.SequenceNode? then Scalars(n.value.content)
    else []
  }

  /** Keys stand at the even places, and the first of a name is the one before which there is no other. */
  lemma KeyPlaces(content: seq<Node>, key: string, i: nat, k: nat)
    requires i % 2 == 0 && i + 1 < |content| && content[i].value == key
    requires forall j: nat | j < i && j % 2 == 0 :: content[j].value != key
    ensures HasKey(content, key) && FirstKey(content, key, i)
    ensures FirstKey(content, key, k) ==> k == i
    ensures !HasKey(content[..i], key)
  {
  }

  method MapValue(m: Node, key: string) returns (v: Option<Node>)
    ensures v.Some? <==> HasKey(m.content, key)
    ensures v.Some? ==> exists i :: FirstKey(m.content, key, i) && v.value == m.content[i + 1]
  {
    var i := 0;
    while i + 1 < |m.content|
      invariant i % 2 == 0
      invariant forall j | 0 <= j < i && j % 2 == 0 :: j < |m.content| && m.content[j].value != key
    {
      if m.content[i].value == key {
        assert FirstKey(m.content, key, i);
        return Some(m.content[i + 1]);
      }
      i := i + 2;
    }
    return None;
  }

  /** Nothing without a node; one scalar is one name; a list gives its scalars in order. */
  lemma FilterCases(value: string, content: seq<Node>, e: Node)
    ensures FilterOf(None) == [] && Scalars([]) == []
    ensures FilterOf(Some(Node(ScalarNode, value, content))) == [value]
    ensures FilterOf(Some(Node(SequenceNode, value, content))) == Scalars(content)
    ensures Scalars(content + [e]) == Scalars(content) + if e.kind == ScalarNode then [e.value] else []
  {
    assert (content + [e])[..|content|] == content;
  }

  /** Each scalar of a list stands after those before it. */
  lemma {:induction false} ScalarAt(content: seq<Node>, i: nat)
    requires i < |content| && content[i].kind == ScalarNode
    ensures |Scalars(content[..i])| < |Scalars(content)|
    ensures Scalars(content)[|Scalars(content[..i])|] == content[i].value
    decreases |content|
  {
    var n := |content| - 1;
    if i < n {
      ScalarAt(content[..n], i);
      assert content[..n][..i] == content[..i];
    }
  }

  /** Each name of a filter is a scalar of the list. */
  lemma {:induction false} ScalarFrom(content: seq<Node>, k: nat)
    requires k < |Scalars(content)|
    ensures exists i | 0 <= i < |content| :: content[i].kind == ScalarNode && content[i].value == Scalars(content)[k]
    decreases |content|
  {
    var n := |content| - 1;
    if k < |Scalars(content[..n])| {
      ScalarFrom(content[..n], k);
      var i :| 0 <= i < n && content[..n][i].kind == ScalarNode && content[..n][i].value == Scalars(content[..n])[k];
      assert content[i].kind == ScalarNode && content[i].value == Scalars(content)[k];
    } else {
      assert content[n].kind == ScalarNode && content[n].value == Scalars(content)[k];
    }
  }

  method SeqStrings(n: Option<Node>) returns (out: seq<string>)
    ensures out == FilterOf(n)
  {
    if n.None? {
      return [];
    }
    match n.value.kind
    case ScalarNode => return [n.value.value];
    case SequenceNode =>
      var content := n.value.content;
      out := [];
      for i := 0 to |content|
        invariant out == Scalars(content[..i])
      {
        assert content[..i + 1][..i] == content[..i];
        if content[i].kind.ScalarNode? {
          out := out + [content[i].value];
        }
      }
      assert content[..|content|] == content;
    case _ => return [];
  }

  /** The value of key in a mapping, or no node. */
  ghost predicate ValueAt(m: Node, key: string, v: Option<Node>) {
    if HasKey(m.content, key) then exists i :: FirstKey(m.content, key, i) && v == Some(m.content[i + 1])
    else v == None
  }

  /** The trigger that the body of the `push:` key asks for. */
  ghost predicate TriggerOfPush(body: Node, t: PushTrigger) {
    if body.kind.MappingNode? then
      exists allow, ignored ::
        && ValueAt(body, "branches", allow) && ValueAt(body, "branches-ignore", ignored)
        && t == PushTrigger(true, FilterOf(allow), FilterOf(ignored))
    else t == PushTrigger(true, [], [])
  }

  /** The allow-list is under "branches", the deny-list under "branches-ignore"; the first of a key counts. */
  lemma FiltersOfPush(body: Node, t: PushTrigger, i: nat)
    requires TriggerOfPush(body, t) && body.kind == MappingNode && t.reacts
    requires i % 2 == 0 && i + 1 < |body.content|
    requires forall j: nat | j < i && j % 2 == 0 :: body.content[j].value != body.content[i].value
    ensures body.content[i].value == "branches" ==> t.branches == FilterOf(Some(body.content[i + 1]))
    ensures body.content[i].value == "branches-ignore" ==> t.branchesIgnore == FilterOf(Some(body.content[i + 1]))
  {
    assert HasKey(body.content, body.content[i].value);
  }

  /** A key that is not there filters nothing. */
  lemma NoFilterOfPush(body: Node, t: PushTrigger)
    requires TriggerOfPush(body, t) && body.kind == MappingNode
    ensures (forall i: nat | i % 2 == 0 && i + 1 < |body.content| :: body.content[i].value != "branches") ==>
              t.branches == []
    ensures (forall i: nat | i % 2 == 0 && i + 1 < |body.content| :: body.content[i].value != "branches-ignore") ==>
              t.branchesIgnore == []
    ensures t.reacts
  {
  }

  method InterpretOn(on: Node) returns (t: PushTrigger)
    ensures t.reacts <==>
            || (on.kind.ScalarNode? && on.value == "push")
            || (on.kind.SequenceNode? && exists n <- on.content :: n.kind.ScalarNode? && n.value == "push")
            || (on.kind.MappingNode? && HasKey(on.content, "push"))
    ensures !t.reacts || !on.kind.MappingNode? ==> t.branches == [] && t.branchesIgnore == []
    ensures t.reacts && on.kind.MappingNode? ==>
      exists i :: FirstKey(on.content, "push", i) && TriggerOfPush(on.content[i + 1], t)
  {
    match on.kind
    case ScalarNode => return NO_TRIGGER.(reacts := on.value == "push");
    case SequenceNode =>
      for i := 0 to |on.content|
        invariant forall j | 0 <= j < i :: !(on.content[j].kind.ScalarNode? && on.content[j].value == "push")
      {
        if on.content[i].kind.ScalarNode? && on.content[i].value == "push" {
          return NO_TRIGGER.(reacts := true);
        }
      }
      return NO_TRIGGER;
    case MappingNode =>
      var i := 0;
      while i + 1 < |on.content|
        invariant i % 2 == 0
        invariant forall j | 0 <= j < i && j % 2 == 0 :: j < |on.content| && on.content[j].value != "push"
      {
        if on.content[i].value != "push" {
          i := i + 2;
          continue;
        }
        assert FirstKey(on.content, "push", i);
        t := NO_TRIGGER.(reacts := true);
        var v := on.content[i + 1];
        if v.kind.MappingNode? {
          var allow := MapValue(v, "branches");
          var ignored := MapValue(v, "branches-ignore");
          var branches := SeqStrings(allow);
          var branchesIgnore := SeqStrings(ignored);
          t := t.(branches := branches, branchesIgnore := branchesIgnore);
          assert ValueAt(v, "branches", allow) && ValueAt(v, "branches-ignore", ignored);
        }
        assert TriggerOfPush(v, t);
        return t;
      }
      return NO_TRIGGER;
    case _ => return NO_TRIGGER;
  }
}
