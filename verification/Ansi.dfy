/**
 ANSI escapes to HTML (internal/render/ansi.go). A string holds bytes here.
 */
module Ansi {
  import opened Strings
  import opened Wrappers

  const ESC: char := 0x1b as char
  const NUL: char := 0 as char
  /** U+FFFD in UTF-8, which the escaper writes for a NUL. */
  const REPLACEMENT: string := [0xef as char, 0xbf as char, 0xbd as char]

  /** The fixed palette. */
  function Palette(code: int): string {
    match code
    case 30 => "#555555"
    case 31 => "#c0392b"
    case 32 => "#27ae60"
    case 33 => "#b7950b"
    case 34 => "#2980b9"
    case 35 => "#8e44ad"
    case 36 => "#17a2a2"
    case 37 => "#aaaaaa"
    case 90 => "#7f8c8d"
    case 91 => "#e74c3c"
    case 92 => "#2ecc71"
    case 93 => "#f1c40f"
    case 94 => "#3498db"
    case 95 => "#9b59b6"
    case 96 => "#1abc9c"
    case 97 => "#ecf0f1"
    case _ => ""
  }

  /** Text that cannot break out of its place in a style attribute. */
  predicate Inert(s: string) {
    forall i | 0 <= i < |s| :: s[i] != '"' && s[i] != ';'
  }

  lemma PaletteIsInert(code: int)
    ensures Inert(Palette(code))
  {
  }

  /** color is "" for the default. */
  datatype Style = Style(bold: bool, color: string)

  const PLAIN := Style(false, "")

  datatype Cell = Cell(c: char, style: Style)

  // ---------- Control sequences ----------

  /** ECMA-48, section 5.4: a control sequence is ESC [ and ends at the first byte in 0x40 to 0x7e. */
  datatype Token = Text(c: char) | Csi(params: string, final: char) | LoneEsc | Unterminated(rest: string)

  predicate IsFinal(c: char) {
    0x40 <= c as int <= 0x7e
  }

  function FinalFrom(b: string, i: nat): (j: nat)
    requires i <= |b|
    ensures i <= j <= |b|
    ensures forall k | i <= k < j :: !IsFinal(b[k])
    ensures j < |b| ==> IsFinal(b[j])
    decreases |b| - i
  {
    if i < |b| && !IsFinal(b[i]) then FinalFrom(b, i + 1) else i
  }

  function FirstToken(b: string): (r: (Token, nat))
    requires b != ""
    ensures 0 < r.1 <= |b|
  {
    if b[0] != ESC then (Text(b[0]), 1)
    else if |b| > 1 && b[1] == '[' then
      var j := FinalFrom(b, 2);
      if j < |b| then (Csi(b[2..j], b[j]), j + 1) else (Unterminated(b[2..]), |b|)
    else (LoneEsc, 1)
  }

  function Tokens(b: string): seq<Token> {
    if b == "" then [] else [FirstToken(b).0] + Tokens(b[FirstToken(b).1..])
  }

  function Source(t: Token): string {
    match t
    case Text(c) => [c]
    case Csi(params, final) => [ESC, '['] + params + [final]
    case LoneEsc => [ESC]
    case Unterminated(rest) => [ESC, '['] + rest
  }

  function Sources(ts: seq<Token>): string {
    if ts == [] then "" else Source(ts[0]) + Sources(ts[1..])
  }

  predicate ProperToken(t: Token) {
    match t
    case Text(c) => c != ESC
    case Csi(params, final) => IsFinal(final) && forall c <- params :: !IsFinal(c)
    case LoneEsc => true
    case Unterminated(rest) => forall c <- rest :: !IsFinal(c)
  }

  lemma {:induction false} FirstTokenSource(b: string)
    requires b != ""
    ensures Source(FirstToken(b).0) == b[..FirstToken(b).1] && ProperToken(FirstToken(b).0)
  {
    if b[0] == ESC && |b| > 1 && b[1] == '[' {
      var j := FinalFrom(b, 2);
      if j < |b| {
        assert b[..j + 1] == [ESC, '['] + b[2..j] + [b[j]];
      } else {
        assert b == [ESC, '['] + b[2..];
      }
    }
  }

  lemma {:induction false} TokensFirst(b: string)
    requires b != ""
    ensures Tokens(b) != [] && Tokens(b)[0] == FirstToken(b).0
    ensures Tokens(b)[1..] == Tokens(b[FirstToken(b).1..])
  {
  }

  lemma {:induction false} TokensAreProper(b: string)
    ensures forall i | 0 <= i < |Tokens(b)| :: ProperToken(Tokens(b)[i])
  {
    if b != "" {
      FirstTokenSource(b);
      TokensFirst(b);
      TokensAreProper(b[FirstToken(b).1..]);
      forall i | 0 <= i < |Tokens(b)| ensures ProperToken(Tokens(b)[i]) {
        if i > 0 {
          assert Tokens(b)[i] == Tokens(b)[1..][i - 1];
        }
      }
    }
  }

  lemma {:induction false} SourcesOf(b: string, t: Token, n: nat, rest: seq<Token>)
    requires n <= |b| && Source(t) == b[..n] && Sources(rest) == b[n..]
    ensures Sources([t] + rest) == b
  {
    assert ([t] + rest)[1..] == rest;
    assert b == b[..n] + b[n..];
  }

  lemma {:induction false} TokensJoin(b: string)
    ensures Sources(Tokens(b)) == b
  {
    if b != "" {
      FirstTokenSource(b);
      TokensJoin(b[FirstToken(b).1..]);
      SourcesOf(b, FirstToken(b).0, FirstToken(b).1, Tokens(b[FirstToken(b).1..]));
    }
  }

  /** The tokens are the whole input, cut where ECMA-48 says. */
  lemma {:induction false} TokensAreSource(b: string)
    ensures Sources(Tokens(b)) == b
    ensures forall i | 0 <= i < |Tokens(b)| :: ProperToken(Tokens(b)[i])
  {
    TokensJoin(b);
    TokensAreProper(b);
  }

  // ---------- Styles ----------

  predicate AllDigits(s: string) {
    forall i | 0 <= i < |s| :: '0' <= s[i] <= '9'
  }

  predicate IsDigits(s: string) {
    s != "" && AllDigits(s)
  }

  function Number(s: string): int
    requires AllDigits(s)
  {
    if s == "" then 0 else Number(s[..|s| - 1]) * 10 + (s[|s| - 1] as int - '0' as int)
  }

  /** strconv.Atoi. What it rejects as out of range is no code of the palette either. */
  function Atoi(s: string): Option<int> {
    if s != "" && (s[0] == '+' || s[0] == '-') then
      if IsDigits(s[1..]) then Some(if s[0] == '-' then -Number(s[1..]) else Number(s[1..])) else None
    else if IsDigits(s) then Some(Number(s)) else None
  }

  /** One code of ECMA-48, section 8.3.117, as far as it is supported. */
  function Coded(style: Style, param: string): Style {
    match Atoi(param)
    case None => style
    case Some(code) =>
      if code == 0 then PLAIN
      else if code == 1 then style.(bold := true)
      else if code == 22 then style.(bold := false)
      else if code == 39 then style.(color := "")
      else if Palette(code) != "" then style.(color := Palette(code))
      else style
  }

  function Fold(style: Style, params: seq<string>): Style {
    if params == [] then style else Coded(Fold(style, params[..|params| - 1]), params[|params| - 1])
  }

  function Sgr(style: Style, params: string): Style {
    if params == "" then PLAIN else Fold(style, Split(params, ';'))
  }

  function Applied(style: Style, t: Token): Style {
    if t.Csi? && t.final == 'm' then Sgr(style, t.params) else style
  }

  /** The style that all SGR sequences of these tokens leave, in order. */
  function StyleAfter(ts: seq<Token>): Style {
    if ts == [] then PLAIN else Applied(StyleAfter(ts[..|ts| - 1]), ts[|ts| - 1])
  }

  /** What a reader should see: the text alone, each byte in the style folded so far. */
  function Cells(ts: seq<Token>): seq<Cell> {
    if ts == [] then []
    else
      var front := ts[..|ts| - 1];
      var t := ts[|ts| - 1];
      Cells(front) + if t.Text? then [Cell(t.c, StyleAfter(front))] else []
  }

  lemma {:induction false} FoldIsInert(style: Style, params: seq<string>)
    requires Inert(style.color)
    ensures Inert(Fold(style, params).color)
  {
    if params != [] {
      FoldIsInert(style, params[..|params| - 1]);
      var code := Atoi(params[|params| - 1]);
      if code.Some? {
        PaletteIsInert(code.value);
      }
    }
  }

  lemma {:induction false} StyleIsInert(ts: seq<Token>)
    ensures Inert(StyleAfter(ts).color)
  {
    if ts != [] {
      StyleIsInert(ts[..|ts| - 1]);
      var t := ts[|ts| - 1];
      if t.Csi? {
        FoldIsInert(StyleAfter(ts[..|ts| - 1]), Split(t.params, ';'));
      }
    }
  }

  // ---------- HTML ----------

  /** What a byte looks like: a NUL is replaced. */
  function ShownCell(x: Cell): seq<Cell> {
    if x.c == NUL then Styled(REPLACEMENT, x.style) else [x]
  }

  function Shown(cells: seq<Cell>): seq<Cell> {
    if cells == [] then []
    else Shown(cells[..|cells| - 1]) + ShownCell(cells[|cells| - 1])
  }

  function Styled(s: string, style: Style): seq<Cell> {
    seq(|s|, i requires 0 <= i < |s| => Cell(s[i], style))
  }

  function EscapeChar(c: char): string {
    if c == NUL then REPLACEMENT
    else if c == '"' then "&#34;"
    else if c == '\'' then "&#39;"
    else if c == '&' then "&amp;"
    else if c == '<' then "&lt;"
    else if c == '>' then "&gt;"
    else [c]
  }

  /** template.HTMLEscapeString. */
  function Escape(s: string): string {
    if s == "" then "" else EscapeChar(s[0]) + Escape(s[1..])
  }

  const OPEN := "<span style=\""
  const CLOSE := "</span>"

  const BOLD := "font-weight:bold;"

  function ParseColor(s: string): Option<string> {
    if s == "" then Some("")
    else if "color:" <= s && IndexOf(s, ';') == |s| - 1 then Some(s[6..|s| - 1])
    else None
  }

  /** The two declarations that may stand in a style attribute. */
  function ParseStyle(s: string): Option<Style> {
    match ParseColor(if BOLD <= s then s[17..] else s)
    case None => None
    case Some(color) => Some(Style(BOLD <= s, color))
  }

  function Entity(s: string): Option<(char, nat)> {
    if "&#34;" <= s then Some(('"', 5))
    else if "&#39;" <= s then Some(('\'', 5))
    else if "&amp;" <= s then Some(('&', 5))
    else if "&lt;" <= s then Some(('<', 4))
    else if "&gt;" <= s then Some(('>', 4))
    else None
  }

  /**
   A strict reader of HTML that consists of text and unnested styled spans. It fails on any
   other tag, on a span that is not closed, and on a special character that is not escaped.
   */
  function Read(html: string, span: Option<Style>): Option<seq<Cell>>
    decreases |html|
  {
    if html == "" then
      if span.None? then Some([]) else None
    else if html[0] == '<' then
      if span.None? && OPEN <= html then
        var rest := html[13..];
        var n := IndexOf(rest, '"');
        if n + 1 < |rest| && rest[n + 1] == '>' && ParseStyle(rest[..n]).Some?
        then Read(rest[n + 2..], Some(ParseStyle(rest[..n]).value)) else None
      else if span.Some? && CLOSE <= html then Read(html[7..], None)
      else None
    else if html[0] == '&' then
      match Entity(html)
      case None => None
      case Some((c, width)) => Prepend(Cell(c, Current(span)), Read(html[width..], span))
    else if html[0] in {'>', '"', '\'', NUL} then None
    else Prepend(Cell(html[0], Current(span)), Read(html[1..], span))
  }

  function Current(span: Option<Style>): Style {
    if span.Some? then span.value else PLAIN
  }

  function Prepend(x: Cell, cells: Option<seq<Cell>>): Option<seq<Cell>> {
    if cells.None? then None else Some([x] + cells.value)
  }

  lemma {:induction false} ReadEntity(c: char, rest: string, span: Option<Style>)
    requires c in {'"', '\'', '&', '<', '>'}
    ensures Read(EscapeChar(c) + rest, span) == Prepend(Cell(c, Current(span)), Read(rest, span))
  {
    var e := EscapeChar(c);
    var html := e + rest;
    assert html[..|e|] == e && html[|e|..] == rest;
    assert html[1] == e[1] && html[2] == e[2] && html[3] == e[3];
    assert Entity(html) == Some((c, |e|));
  }

  lemma {:induction false} ReadRaw(c: char, rest: string, span: Option<Style>)
    requires c !in {'"', '\'', '&', '<', '>', NUL}
    ensures Read([c] + rest, span) == Prepend(Cell(c, Current(span)), Read(rest, span))
  {
    assert ([c] + rest)[1..] == rest;
  }

  lemma {:induction false} ReadTwo(a: char, b: char, rest: string, span: Option<Style>)
    requires forall c <- [a, b] :: c !in {'"', '\'', '&', '<', '>', NUL}
    ensures Read([a, b] + rest, span)
         == Prepend(Cell(a, Current(span)), Prepend(Cell(b, Current(span)), Read(rest, span)))
  {
    assert a in [a, b] && b in [a, b];
    assert [a, b] + rest == [a] + ([b] + rest);
    ReadRaw(b, rest, span);
    ReadRaw(a, [b] + rest, span);
  }

  lemma {:induction false} ReadReplacement(rest: string, span: Option<Style>)
    requires Read(rest, span).Some?
    ensures Read(REPLACEMENT + rest, span) == Some(Styled(REPLACEMENT, Current(span)) + Read(rest, span).value)
  {
    var a, b, c := 0xef as char, 0xbf as char, 0xbd as char;
    assert REPLACEMENT + rest == [a, b] + ([c] + rest);
    ReadRaw(c, rest, span);
    ReadTwo(a, b, [c] + rest, span);
    ReplacementCells(Current(span), Read(rest, span).value);
  }

  lemma ReplacementCells(style: Style, cells: seq<Cell>)
    ensures Styled(REPLACEMENT, style) + cells ==
            [Cell(0xef as char, style)] + ([Cell(0xbf as char, style)] + ([Cell(0xbd as char, style)] + cells))
  {
    assert Styled(REPLACEMENT, style) ==
           [Cell(0xef as char, style), Cell(0xbf as char, style), Cell(0xbd as char, style)];
  }

  lemma {:induction false} ShownOne(x: Cell)
    ensures Shown([x]) == ShownCell(x)
  {
    assert [x][..0] == [];
  }

  /** An escaped byte reads as the byte, in the current style; a NUL as the replacement character. */
  lemma {:induction false} ReadChar(c: char, rest: string, span: Option<Style>)
    requires Read(rest, span).Some?
    ensures Read(EscapeChar(c) + rest, span) == Some(Shown([Cell(c, Current(span))]) + Read(rest, span).value)
  {
    ShownOne(Cell(c, Current(span)));
    if c in {'"', '\'', '&', '<', '>'} {
      ReadEntity(c, rest, span);
    } else if c == NUL {
      ReadReplacement(rest, span);
    } else {
      ReadRaw(c, rest, span);
    }
  }

  lemma {:induction false} ShownMore(cells: seq<Cell>, x: Cell)
    ensures Shown(cells + [x]) == Shown(cells) + ShownCell(x)
  {
    assert (cells + [x])[..|cells|] == cells;
  }

  lemma {:induction false} ShownConcat(a: seq<Cell>, b: seq<Cell>)
    ensures Shown(a + b) == Shown(a) + Shown(b)
  {
    if b == [] {
      assert a + b == a;
    } else {
      var front, x := b[..|b| - 1], b[|b| - 1];
      assert b == front + [x] && a + b == (a + front) + [x];
      ShownConcat(a, front);
      ShownMore(a + front, x);
      ShownMore(front, x);
      assert Shown(a) + Shown(front) + ShownCell(x) == Shown(a) + (Shown(front) + ShownCell(x));
    }
  }

  lemma {:induction false} ShownIsSame(cells: seq<Cell>)
    requires forall x <- cells :: x.c != NUL
    ensures Shown(cells) == cells
  {
    if cells != [] {
      var front, last := cells[..|cells| - 1], cells[|cells| - 1];
      assert cells == front + [last];
      assert last in cells && forall x <- front :: x in cells;
      ShownIsSame(front);
      ShownMore(front, last);
    }
  }

  lemma {:induction false} EscapeFirst(s: string, rest: string)
    requires s != ""
    ensures Escape(s) + rest == EscapeChar(s[0]) + (Escape(s[1..]) + rest)
  {
  }

  lemma {:induction false} ShownFirst(s: string, style: Style, more: seq<Cell>)
    requires s != ""
    ensures Shown(Styled(s, style)) + more == Shown([Cell(s[0], style)]) + (Shown(Styled(s[1..], style)) + more)
  {
    assert Styled(s, style) == [Cell(s[0], style)] + Styled(s[1..], style);
    ShownConcat([Cell(s[0], style)], Styled(s[1..], style));
  }

  lemma {:induction false} ReadFirst(s: string, tail: string, span: Option<Style>, more: seq<Cell>)
    requires s != "" && Read(tail, span) == Some(Shown(Styled(s[1..], Current(span))) + more)
    ensures Read(EscapeChar(s[0]) + tail, span) == Some(Shown(Styled(s, Current(span))) + more)
  {
    ReadChar(s[0], tail, span);
    ShownFirst(s, Current(span), more);
  }

  lemma ReadNothing(rest: string, span: Option<Style>)
    requires Read(rest, span).Some?
    ensures Read(Escape("") + rest, span) == Some(Shown(Styled("", Current(span))) + Read(rest, span).value)
  {
    assert Escape("") == "" && "" + rest == rest;
    assert Styled("", Current(span)) == [] && Shown([]) == [];
    assert [] + Read(rest, span).value == Read(rest, span).value;
  }

  lemma {:induction false} ReadEscaped(s: string, rest: string, span: Option<Style>)
    requires Read(rest, span).Some?
    ensures Read(Escape(s) + rest, span) == Some(Shown(Styled(s, Current(span))) + Read(rest, span).value)
  {
    if s == "" {
      ReadNothing(rest, span);
    } else {
      ReadEscaped(s[1..], rest, span);
      EscapeFirst(s, rest);
      ReadFirst(s, Escape(s[1..]) + rest, span, Read(rest, span).value);
    }
  }

  function ColorDeclaration(color: string): string {
    if color == "" then "" else "color:" + color + ";"
  }

  function Declarations(style: Style): string {
    if style.bold then BOLD + ColorDeclaration(style.color) else ColorDeclaration(style.color)
  }

  lemma {:induction false} ColorParses(color: string)
    requires Inert(color)
    ensures ParseColor(ColorDeclaration(color)) == Some(color)
    ensures !(BOLD <= ColorDeclaration(color))
  {
    if color != "" {
      var s := "color:" + color + ";";
      assert s[0] == 'c' && s[..6] == "color:" && s[6..|s| - 1] == color;
      forall i | 0 <= i < |s| - 1 ensures s[i] != ';' {
        assert s[i] == if i < 6 then "color:"[i] else color[i - 6];
      }
      IndexIs(s, ';', |s| - 1);
    }
  }

  lemma {:induction false} ParseDeclarations(style: Style)
    requires Inert(style.color)
    ensures ParseStyle(Declarations(style)) == Some(style)
  {
    var rest := ColorDeclaration(style.color);
    ColorParses(style.color);
    if style.bold {
      assert BOLD <= BOLD + rest && (BOLD + rest)[17..] == rest;
    }
  }

  lemma {:induction false} DeclarationsAreQuotable(style: Style)
    requires Inert(style.color)
    ensures '"' !in Declarations(style)
  {
    var rest := ColorDeclaration(style.color);
    forall i | 0 <= i < |rest| ensures rest[i] != '"' {
      assert rest[i] == if i < 6 then "color:"[i] else if i < |rest| - 1 then style.color[i - 6] else ';';
    }
    assert '"' !in BOLD;
  }

  /** What flush writes. */
  function Flushed(s: string, style: Style): string {
    if s == "" then ""
    else if style == PLAIN then Escape(s)
    else OPEN + Declarations(style) + "\">" + Escape(s) + CLOSE
  }

  /** Reading out and going on gives these cells and goes on. */
  ghost predicate Reads(out: string, cells: seq<Cell>) {
    forall rest {:trigger Read(out + rest, None)} | Read(rest, None).Some? ::
      Read(out + rest, None) == Some(cells + Read(rest, None).value)
  }

  lemma {:induction false} ReadsConcat(a: string, x: seq<Cell>, b: string, y: seq<Cell>)
    requires Reads(a, x) && Reads(b, y)
    ensures Reads(a + b, x + y)
  {
    forall rest | Read(rest, None).Some?
      ensures Read(a + b + rest, None) == Some(x + y + Read(rest, None).value)
    {
      assert a + b + rest == a + (b + rest);
      assert x + y + Read(rest, None).value == x + (y + Read(rest, None).value);
    }
  }

  lemma {:induction false} FlushedReadsOn(s: string, style: Style, rest: string)
    requires Inert(style.color) && Read(rest, None).Some?
    ensures Read(Flushed(s, style) + rest, None) == Some(Shown(Styled(s, style)) + Read(rest, None).value)
  {
    if s == "" {
      assert Flushed(s, style) + rest == rest && Styled(s, style) == [];
      assert [] + Read(rest, None).value == Read(rest, None).value;
    } else if style == PLAIN {
      ReadEscaped(s, rest, None);
    } else {
      SpanReads(s, style, rest);
    }
  }

  lemma {:induction false} FlushedReads(s: string, style: Style)
    requires Inert(style.color)
    ensures Reads(Flushed(s, style), Shown(Styled(s, style)))
  {
    forall rest | Read(rest, None).Some?
      ensures Read(Flushed(s, style) + rest, None) == Some(Shown(Styled(s, style)) + Read(rest, None).value)
    {
      FlushedReadsOn(s, style, rest);
    }
  }

  lemma Regroup(a: string, b: string, c: string, d: string, e: string, f: string)
    ensures a + b + c + d + e + f == a + (b + c + (d + (e + f)))
  {
  }

  lemma {:induction false} SpanReads(s: string, style: Style, rest: string)
    requires Inert(style.color) && Read(rest, None).Some?
    ensures Read(OPEN + Declarations(style) + "\">" + Escape(s) + CLOSE + rest, None) ==
            Some(Shown(Styled(s, style)) + Read(rest, None).value)
  {
    Regroup(OPEN, Declarations(style), "\">", Escape(s), CLOSE, rest);
    CloseReads(rest, style);
    ReadEscaped(s, CLOSE + rest, Some(style));
    OpenReads(style, Escape(s) + (CLOSE + rest));
  }

  lemma {:induction false} CloseReads(rest: string, style: Style)
    ensures Read(CLOSE + rest, Some(style)) == Read(rest, None)
  {
    var html := CLOSE + rest;
    assert html[7..] == rest && html[0] == '<';
  }

  lemma {:induction false} OpenReadsAs(after: string, n: nat, style: Style)
    requires n + 1 < |after| && IndexOf(after, '"') == n && after[n + 1] == '>'
    requires ParseStyle(after[..n]) == Some(style)
    ensures Read(OPEN + after, None) == Read(after[n + 2..], Some(style))
  {
    var html := OPEN + after;
    assert html[13..] == after && html[0] == '<';
  }

  lemma {:induction false} OpenReads(style: Style, body: string)
    requires Inert(style.color)
    ensures Read(OPEN + (Declarations(style) + "\">" + body), None) == Read(body, Some(style))
  {
    var decl := Declarations(style);
    var after := decl + "\">" + body;
    ParseDeclarations(style);
    DeclarationsAreQuotable(style);
    IndexIs(after, '"', |decl|);
    assert after[..|decl|] == decl && after[|decl| + 2..] == body;
    OpenReadsAs(after, |decl|, style);
  }

  lemma CellsOne(ts: seq<Token>, t: Token)
    ensures Cells(ts + [t]) == Cells(ts) + if t.Text? then [Cell(t.c, StyleAfter(ts))] else []
    ensures StyleAfter(ts + [t]) == Applied(StyleAfter(ts), t)
  {
    assert (ts + [t])[..|ts|] == ts;
  }

  // ---------- The code ----------

  method ApplySGR(params: string, color: string, bold: bool) returns (color': string, bold': bool)
    ensures Style(bold', color') == Sgr(Style(bold, color), params)
  {
    if |params| == 0 {
      return "", false;
    }
    color', bold' := color, bold;
    var parts := Split(params, ';');
    for k := 0 to |parts|
      invariant Style(bold', color') == Fold(Style(bold, color), parts[..k])
    {
      assert parts[..k + 1][..k] == parts[..k];
      match Atoi(parts[k])
      case None =>
      case Some(code) =>
        if code == 0 {
          color', bold' := "", false;
        } else if code == 1 {
          bold' := true;
        } else if code == 22 {
          bold' := false;
        } else if code == 39 {
          color' := "";
        } else if Palette(code) != "" {
          color' := Palette(code);
        }
    }
    assert parts[..|parts|] == parts;
  }

  method Flush(out: string, s: string, color: string, bold: bool) returns (out': string)
    ensures out' == out + Flushed(s, Style(bold, color))
  {
    if |s| == 0 {
      return out;
    }
    if color == "" && !bold {
      return out + Escape(s);
    }
    var span := OPEN;
    if bold {
      span := span + "font-weight:bold;";
    }
    if color != "" {
      span := span + "color:";
      span := span + color;
      span := span + ";";
    }
    assert span == OPEN + Declarations(Style(bold, color));
    span := span + "\">";
    span := span + Escape(s);
    span := span + CLOSE;
    return out + span;
  }

  lemma {:induction false} SliceOfSuffix(b: string, i: nat, lo: nat, hi: nat, end: nat)
    requires lo <= hi && i + hi == end <= |b|
    ensures b[i..][lo..hi] == b[i + lo..end]
  {
  }

  /** Steps over what begins with the ESC at i. */
  method Escaped(b: string, i: nat, color: string, bold: bool)
    returns (ghost t: Token, next: nat, color': string, bold': bool)
    requires i < |b| && b[i] == ESC
    ensures i < next <= |b| && FirstToken(b[i..]) == (t, next - i)
    ensures Style(bold', color') == Applied(Style(bold, color), t)
  {
    var n := |b|;
    color', bold' := color, bold;
    t := FirstToken(b[i..]).0;
    if i + 1 < n && b[i + 1] == '[' {
      var j := i + 2;
      while j < n && !IsFinal(b[j])
        invariant i + 2 <= j <= n
        invariant forall k | i + 2 <= k < j :: !IsFinal(b[k])
      {
        j := j + 1;
      }
      FinalIs(b[i..], 2, j - i);
      if j >= n {
        next := n;
      } else {
        if b[j] == 'm' {
          SliceOfSuffix(b, i, 2, j - i, j);
          color', bold' := ApplySGR(b[i + 2..j], color, bold);
        }
        next := j + 1;
      }
    } else {
      next := i + 1;
    }
  }

  /**
   A strict reader of the output finds every byte that is not part of a control sequence and
   is not a lone ESC, in order and unescaped, each in the style that all earlier SGR codes
   give; all spans are closed.
   */
  method ToHtml(b: string) returns (html: string)
    ensures Read(html, None) == Some(Shown(Cells(Tokens(b))))
  {
    html := "";
    var color, bold := "", false;
    ghost var ts: seq<Token> := [];
    ghost var flushed: seq<Cell> := [];
    var i, n, start := 0, |b|, 0;
    ProgressStart(b);
    while i < n
      invariant 0 <= start <= i <= n
      invariant Progress(b, html, start, i, Style(bold, color), ts, flushed)
    {
      if b[i] != ESC {
        ProgressText(b, html, start, i, Style(bold, color), ts, flushed);
        ts := ts + [Text(b[i])];
        i := i + 1;
        continue;
      }
      ghost var shown := html;
      html := Flush(html, b[start..i], color, bold);
      ghost var t;
      var next;
      ghost var before := Style(bold, color);
      t, next, color, bold := Escaped(b, i, color, bold);
      ProgressEsc(b, shown, start, i, before, ts, flushed, t, next);
      flushed, ts := Cells(ts), ts + [t];
      i := next;
      start := i;
    }
    ProgressEnd(b, html, start, Style(bold, color), ts, flushed);
    html := Flush(html, b[start..n], color, bold);
  }

  /**
   Where the scanner is: ts are the tokens of b[..i], flushed the cells that html shows, and
   b[start..i] is text that is still to be flushed.
   */
  ghost predicate Progress(
    b: string, html: string, start: nat, i: nat, style: Style, ts: seq<Token>, flushed: seq<Cell>)
  {
    && start <= i <= |b|
    && Tokens(b) == ts + Tokens(b[i..])
    && style == StyleAfter(ts)
    && Cells(ts) == flushed + Styled(b[start..i], style)
    && Reads(html, Shown(flushed))
  }

  lemma {:induction false} ProgressStart(b: string)
    ensures Progress(b, "", 0, 0, PLAIN, [], [])
  {
    assert b[0..] == b && [] + Tokens(b) == Tokens(b);
    assert Styled(b[0..0], PLAIN) == [];
    forall rest | Read(rest, None).Some? ensures Read("" + rest, None) == Some([] + Read(rest, None).value) {
      assert "" + rest == rest && [] + Read(rest, None).value == Read(rest, None).value;
    }
  }

  lemma {:induction false} ProgressText(
    b: string, html: string, start: nat, i: nat, style: Style, ts: seq<Token>, flushed: seq<Cell>)
    requires Progress(b, html, start, i, style, ts, flushed) && i < |b| && b[i] != ESC
    ensures Progress(b, html, start, i + 1, style, ts + [Text(b[i])], flushed)
  {
    TokenOn(b, i, ts, Text(b[i]), i + 1);
    CellsOne(ts, Text(b[i]));
    StyledOne(b, start, i, style);
  }

  lemma {:induction false} ProgressEsc(
    b: string, html: string, start: nat, i: nat, style: Style, ts: seq<Token>, flushed: seq<Cell>, t: Token, next: nat)
    requires Progress(b, html, start, i, style, ts, flushed) && i < |b| && b[i] == ESC
    requires i <= next && FirstToken(b[i..]) == (t, next - i)
    ensures Progress(b, html + Flushed(b[start..i], style), next, next, Applied(style, t), ts + [t], Cells(ts))
  {
    TokenOn(b, i, ts, t, next);
    CellsOne(ts, t);
    FlushKeeps(html, flushed, b[start..i], ts);
    assert Styled(b[next..next], Applied(style, t)) == [];
  }

  lemma {:induction false} ProgressEnd(
    b: string, html: string, start: nat, style: Style, ts: seq<Token>, flushed: seq<Cell>)
    requires Progress(b, html, start, |b|, style, ts, flushed)
    ensures Read(html + Flushed(b[start..|b|], style), None) == Some(Shown(Cells(Tokens(b))))
  {
    assert Tokens(b[|b|..]) == [] && ts + [] == ts;
    FlushKeeps(html, flushed, b[start..|b|], ts);
    ReadsAll(html + Flushed(b[start..|b|], style), Shown(Cells(ts)));
  }

  lemma {:induction false} ReadsAll(html: string, cells: seq<Cell>)
    requires Reads(html, cells)
    ensures Read(html, None) == Some(cells)
  {
    assert Read("", None) == Some([]);
    assert html + "" == html && cells + [] == cells;
  }

  lemma {:induction false} TokenOn(b: string, i: nat, ts: seq<Token>, t: Token, next: nat)
    requires i < |b| && Tokens(b) == ts + Tokens(b[i..])
    requires i <= next && FirstToken(b[i..]) == (t, next - i)
    ensures next <= |b| && Tokens(b) == ts + [t] + Tokens(b[next..])
  {
    assert b[i..][next - i..] == b[next..];
  }

  lemma {:induction false} StyledOne(b: string, start: nat, i: nat, style: Style)
    requires start <= i < |b|
    ensures Styled(b[start..i + 1], style) == Styled(b[start..i], style) + [Cell(b[i], style)]
  {
  }

  lemma {:induction false} FinalIs(b: string, i: nat, j: nat)
    requires i <= j <= |b| && (forall k | i <= k < j :: !IsFinal(b[k])) && (j < |b| ==> IsFinal(b[j]))
    ensures FinalFrom(b, i) == j
    decreases j - i
  {
    if i < j {
      FinalIs(b, i + 1, j);
    }
  }

  lemma {:induction false} FlushKeeps(html: string, done: seq<Cell>, s: string, ts: seq<Token>)
    requires Reads(html, Shown(done)) && Cells(ts) == done + Styled(s, StyleAfter(ts))
    ensures Reads(html + Flushed(s, StyleAfter(ts)), Shown(Cells(ts)))
  {
    StyleIsInert(ts);
    FlushedReads(s, StyleAfter(ts));
    ReadsConcat(html, Shown(done), Flushed(s, StyleAfter(ts)), Shown(Styled(s, StyleAfter(ts))));
    ShownConcat(done, Styled(s, StyleAfter(ts)));
  }

  /** For input without NUL the reader sees the cells themselves. */
  lemma {:induction false} NulFreeIsShown(b: string)
    requires NUL !in b
    ensures Shown(Cells(Tokens(b))) == Cells(Tokens(b))
  {
    TextIsFromSource(b);
    CellsAreText(Tokens(b));
    ShownIsSame(Cells(Tokens(b)));
  }

  lemma {:induction false} TextIsFromSource(b: string)
    ensures forall t <- Tokens(b) | t.Text? :: t.c in b
  {
    if b != "" {
      TextIsFromSource(b[FirstToken(b).1..]);
    }
  }

  lemma {:induction false} CellsAreText(ts: seq<Token>)
    ensures forall x <- Cells(ts) :: Text(x.c) in ts
  {
    if ts != [] {
      CellsAreText(ts[..|ts| - 1]);
      assert ts == ts[..|ts| - 1] + [ts[|ts| - 1]];
    }
  }

  // ---------- The codes and characters, one by one ----------

  /** The sixteen colors, and no other. */
  lemma PaletteIs(code: int)
    ensures Palette(30) == "#555555" && Palette(31) == "#c0392b" && Palette(32) == "#27ae60"
    ensures Palette(33) == "#b7950b" && Palette(34) == "#2980b9" && Palette(35) == "#8e44ad"
    ensures Palette(36) == "#17a2a2" && Palette(37) == "#aaaaaa"
    ensures Palette(90) == "#7f8c8d" && Palette(91) == "#e74c3c" && Palette(92) == "#2ecc71"
    ensures Palette(93) == "#f1c40f" && Palette(94) == "#3498db" && Palette(95) == "#9b59b6"
    ensures Palette(96) == "#1abc9c" && Palette(97) == "#ecf0f1"
    ensures !(30 <= code <= 37) && !(90 <= code <= 97) ==> Palette(code) == ""
  {
  }

  /** Numbers are decimal, and may be signed. */
  lemma NumbersAre(s: string, d: char)
    requires AllDigits(s) && '0' <= d <= '9'
    ensures Number("") == 0 && Number(s + [d]) == 10 * Number(s) + (d as int - '0' as int)
    ensures Atoi(s + [d]) == Some(Number(s + [d])) && Atoi("-" + (s + [d])) == Some(-Number(s + [d]))
    ensures Atoi("+" + (s + [d])) == Some(Number(s + [d])) && Atoi("") == None
  {
    assert (s + [d])[..|s|] == s;
    assert ("-" + (s + [d]))[1..] == s + [d] && ("+" + (s + [d]))[1..] == s + [d];
    assert IsDigits(s + [d]);
  }

  lemma OneDigit(d: char)
    requires '0' <= d <= '9'
    ensures Atoi([d]) == Some(d as int - '0' as int)
  {
    NumbersAre("", d);
    assert "" + [d] == [d];
  }

  lemma TwoDigits(c: char, d: char)
    requires '0' <= c <= '9' && '0' <= d <= '9'
    ensures Atoi([c, d]) == Some(10 * (c as int - '0' as int) + (d as int - '0' as int))
  {
    OneDigit(c);
    assert "" + [c] == [c];
    NumbersAre("", c);
    NumbersAre([c], d);
    assert [c] + [d] == [c, d];
  }

  /** Reset, bold and its end, the default color, the sixteen colors; anything else changes nothing. */
  lemma CodesAre(style: Style, c: char, d: char)
    requires '0' <= c <= '9' && '0' <= d <= '9'
    ensures Coded(style, "0") == Style(false, "") && Coded(style, "") == style
    ensures Coded(style, "1") == style.(bold := true) && Coded(style, "22") == style.(bold := false)
    ensures Coded(style, "39") == style.(color := "")
    ensures c in {'3', '9'} && d <= '7' ==>
              Coded(style, [c, d]) == style.(color := Palette(10 * (c as int - '0' as int) + (d as int - '0' as int)))
    ensures c !in {'0', '2', '3', '9'} ==> Coded(style, [c, d]) == style
  {
    OneDigit('0');
    OneDigit('1');
    TwoDigits('2', '2');
    TwoDigits('3', '9');
    TwoDigits(c, d);
    assert Atoi("0") == Some(0) && Atoi("1") == Some(1) && Atoi("22") == Some(22) && Atoi("39") == Some(39);
  }

  lemma {:induction false} FoldFirst(style: Style, first: string, rest: seq<string>)
    ensures Fold(style, [first] + rest) == Fold(Coded(style, first), rest)
  {
    var params := [first] + rest;
    if rest == [] {
      assert params == [first] && params[..0] == [];
      assert Fold(style, params[..0]) == style;
    } else {
      var init, last := rest[..|rest| - 1], rest[|rest| - 1];
      assert params[..|params| - 1] == [first] + init && params[|params| - 1] == last;
      FoldFirst(style, first, init);
    }
  }

  /** An empty list resets; otherwise the codes between the semicolons are applied from left to right. */
  lemma ListsAre(style: Style, first: string, rest: string)
    requires ';' !in first
    ensures Sgr(style, "") == Style(false, "")
    ensures first != "" ==> Sgr(style, first) == Coded(style, first)
    ensures rest != "" ==> Sgr(style, first + ";" + rest) == Sgr(Coded(style, first), rest)
  {
    SplitFirst(first, rest, ';');
    assert first + [';'] + rest == first + ";" + rest;
    FoldFirst(style, first, []);
    assert [first] + [] == [first];
    FoldFirst(style, first, Split(rest, ';'));
  }

  /** A sequence ends at the first byte from '@' to '~'; of all finals only 'm' sets a style. */
  lemma SequencesAre(params: string, final: char, rest: string, style: Style)
    requires (forall c <- params :: !('@' <= c <= '~')) && '@' <= final <= '~'
    ensures ESC as int == 27 && (IsFinal(final) <==> '@' <= final <= '~')
    ensures Tokens([ESC, '['] + params + [final] + rest) == [Csi(params, final)] + Tokens(rest)
    ensures Applied(style, Csi(params, final)) == if final == 'm' then Sgr(style, params) else style
  {
    var b := [ESC, '['] + params + [final] + rest;
    var j := |params| + 2;
    forall k | 2 <= k < j ensures !IsFinal(b[k]) {
      assert b[k] == params[k - 2] && params[k - 2] in params;
    }
    assert b[j] == final;
    FinalIs(b, 2, j);
    assert b[2..j] == params && b[j + 1..] == rest;
    assert FirstToken(b) == (Csi(params, final), j + 1);
  }

  /** Text is what is not part of a sequence. */
  lemma TextIs(c: char, rest: string)
    requires c as int != 27
    ensures Tokens([c] + rest) == [Text(c)] + Tokens(rest)
    ensures Tokens([]) == []
  {
    assert ([c] + rest)[1..] == rest;
  }

  /** The five special characters are escaped, a NUL is replaced, and all others stand for themselves. */
  lemma EscapesAre(c: char, s: string)
    ensures EscapeChar('<') == "&lt;" && EscapeChar('>') == "&gt;" && EscapeChar('&') == "&amp;"
    ensures EscapeChar('"') == "&#34;" && EscapeChar('\'') == "&#39;"
    ensures EscapeChar(0 as char) == [0xef as char, 0xbf as char, 0xbd as char]
    ensures c !in {'<', '>', '&', '"', '\'', 0 as char} ==> EscapeChar(c) == [c]
    ensures Escape("") == "" && Escape([c] + s) == EscapeChar(c) + Escape(s)
  {
    assert ([c] + s)[1..] == s;
  }

  /** The markup around a piece of text. */
  lemma SpansAre(s: string, color: string)
    requires s != "" && color != ""
    ensures Flushed("", Style(true, color)) == "" && Flushed(s, Style(false, "")) == Escape(s)
    ensures Flushed(s, Style(false, color)) == "<span style=\"color:" + color + ";\">" + Escape(s) + "</span>"
    ensures Flushed(s, Style(true, "")) == "<span style=\"font-weight:bold;\">" + Escape(s) + "</span>"
    ensures Flushed(s, Style(true, color)) ==
            "<span style=\"font-weight:bold;color:" + color + ";\">" + Escape(s) + "</span>"
  {
    OpensColored(color);
    OpensBold();
    OpensBoth(color);
  }

  lemma OpensColored(color: string)
    ensures OPEN + ("color:" + color + ";") + "\">" == "<span style=\"color:" + color + ";\">"
  {
  }

  lemma OpensBold()
    ensures OPEN + (BOLD + "") + "\">" == "<span style=\"font-weight:bold;\">"
  {
  }

  lemma OpensBoth(color: string)
    ensures OPEN + (BOLD + ("color:" + color + ";")) + "\">" ==
            "<span style=\"font-weight:bold;color:" + color + ";\">"
  {
  }
}
