/** The TypeScript blanker of the type rules: comments and string contents become spaces, code and
    the expressions of template literals stay. */
module Lexer {
  datatype Mode = Code | LineComment | BlockComment | Quoted(quote: char)

  predicate IsQuote(c: char) { c == '"' || c == '\'' || c == '`' }

  /** Line breaks stay, so that line numbers stay right. */
  function BlankChar(c: char): char { if c == '\n' then c else ' ' }

  function BlankText(s: string): (r: string)
    ensures |r| == |s| && forall k :: 0 <= k < |s| ==> r[k] == BlankChar(s[k])
  {
    seq(|s|, k requires 0 <= k < |s| => BlankChar(s[k]))
  }

  /** What one turn of the scanner consumes, writes and becomes. `nesting` holds, for each open `${`
      expression, how many braces are open in it; the innermost one is last. */
  datatype Turn = Turn(used: nat, out: string, mode: Mode, nesting: seq<nat>)

  function Deeper(nesting: seq<nat>): seq<nat>
    requires nesting != []
  {
    nesting[|nesting| - 1 := nesting[|nesting| - 1] + 1]
  }

  predicate At(s: string, first: char, second: char) { |s| > 1 && s[0] == first && s[1] == second }

  function CodeTurn(s: string, nesting: seq<nat>): Turn
    requires s != ""
  {
    if At(s, '/', '/') then Turn(2, "  ", LineComment, nesting)
    else if At(s, '/', '*') then Turn(2, "  ", BlockComment, nesting)
    else if IsQuote(s[0]) then Turn(1, [s[0]], Quoted(s[0]), nesting)
    else if nesting != [] && s[0] == '{' then Turn(1, "{", Code, Deeper(nesting))
    else if nesting != [] && s[0] == '}' then
      var top := |nesting| - 1;
      if nesting[top] == 0 then Turn(1, "}", Quoted('`'), nesting[..top])
      else Turn(1, "}", Code, nesting[top := nesting[top] - 1])
    else Turn(1, [s[0]], Code, nesting)
  }

  function QuotedTurn(s: string, quote: char, nesting: seq<nat>): Turn
    requires s != ""
  {
    if s[0] == '\\' then
      Turn(2, if |s| == 1 then "  " else [' ', BlankChar(s[1])], Quoted(quote), nesting)
    else if s[0] == quote then Turn(1, [quote], Code, nesting)
    else if quote == '`' && At(s, '$', '{') then Turn(2, "${", Code, nesting + [0])
    else Turn(1, [BlankChar(s[0])], Quoted(quote), nesting)
  }

  function TurnOf(mode: Mode, nesting: seq<nat>, s: string): Turn
    requires s != ""
  {
    match mode
    case Code => CodeTurn(s, nesting)
    case LineComment => Turn(1, [BlankChar(s[0])], if s[0] == '\n' then Code else LineComment, nesting)
    case BlockComment =>
      if At(s, '*', '/') then Turn(2, "  ", Code, nesting) else Turn(1, [BlankChar(s[0])], BlockComment, nesting)
    case Quoted(quote) => QuotedTurn(s, quote, nesting)
  }

  /** The rest of the output, from one state of the scanner. */
  function Blanked(mode: Mode, nesting: seq<nat>, s: string): string
    decreases |s|
  {
    if s == "" then ""
    else
      var turn := TurnOf(mode, nesting, s);
      if turn.used > |s| then turn.out else turn.out + Blanked(turn.mode, turn.nesting, s[turn.used..])
  }

  function CodeOnly(source: string): string { Blanked(Code, [], source) }

  lemma Advance(source: string, i: nat, out: string, mode: Mode, nesting: seq<nat>)
    requires i < |source| && out + Blanked(mode, nesting, source[i..]) == CodeOnly(source)
    ensures var turn := TurnOf(mode, nesting, source[i..]);
            && i + turn.used <= |source| + 1
            && (i + turn.used <= |source| ==>
                  out + turn.out + Blanked(turn.mode, turn.nesting, source[i + turn.used..]) == CodeOnly(source))
            && (i + turn.used == |source| + 1 ==> out + turn.out == CodeOnly(source))
  {
    var turn := TurnOf(mode, nesting, source[i..]);
    if i + turn.used <= |source| {
      assert source[i..][turn.used..] == source[i + turn.used..];
    }
    hide TurnOf, CodeOnly;
  }

  lemma NothingLeft(mode: Mode, nesting: seq<nat>)
    ensures Blanked(mode, nesting, "") == ""
  {
  }

  /** `typescript_code_only`: one pass over the source. */
  method TypescriptCodeOnly(source: string) returns (out: string)
    ensures out == CodeOnly(source)
  {
    hide Blanked;
    out := "";
    var mode: Mode := Code;
    var expressions: seq<nat> := [];
    var i, size := 0, |source|;
    while i < size
      invariant i <= size + 1
      invariant i <= size ==> out + Blanked(mode, expressions, source[i..]) == CodeOnly(source)
      invariant i == size + 1 ==> out == CodeOnly(source)
      decreases size + 1 - i
    {
      Advance(source, i, out, mode, expressions);
      hide CodeOnly;
      ghost var rest := source[i..];
      ghost var start, before, turn := i, out, TurnOf(mode, expressions, rest);
      var here := source[i];
      var following := if i + 1 < size then source[i + 1..i + 2] else "";
      assert rest[0] == here && (following != "" ==> rest[1] == following[0]);
      if mode == Code {
        if here == '/' && (following == "/" || following == "*") {
          mode := if following == "/" then LineComment else BlockComment;
          out := out + "  ";
          i := i + 2;
        } else {
          if IsQuote(here) {
            mode := Quoted(here);
          } else if expressions != [] && here == '{' {
            expressions := expressions[|expressions| - 1 := expressions[|expressions| - 1] + 1];
          } else if expressions != [] && here == '}' {
            if expressions[|expressions| - 1] == 0 {
              expressions := expressions[..|expressions| - 1];
              mode := Quoted('`');
            } else {
              expressions := expressions[|expressions| - 1 := expressions[|expressions| - 1] - 1];
            }
          }
          out := out + [here];
          i := i + 1;
        }
      } else if mode == LineComment {
        if here == '\n' {
          mode := Code;
        }
        out := out + [BlankChar(here)];
        i := i + 1;
      } else if mode == BlockComment {
        if here == '*' && following == "/" {
          mode := Code;
          out := out + "  ";
          i := i + 2;
        } else {
          out := out + [BlankChar(here)];
          i := i + 1;
        }
      } else if here == '\\' {
        out := out + " " + if following == "" then " " else [BlankChar(following[0])];
        i := i + 2;
      } else if here == mode.quote {
        mode := Code;
        out := out + [here];
        i := i + 1;
      } else if mode == Quoted('`') && here == '$' && following == "{" {
        expressions := expressions + [0];
        mode := Code;
        out := out + "${";
        i := i + 2;
      } else {
        out := out + [BlankChar(here)];
        i := i + 1;
      }
      assert i == start + turn.used && out == before + turn.out && mode == turn.mode && expressions == turn.nesting;
    }
    assert i == size ==> source[i..] == "";
    NothingLeft(mode, expressions);
  }

  // ---------------------------------------------------------------- every input

  /** The text ends in a backslash that the scanner meets inside a string or template. */
  predicate EndsEscaping(mode: Mode, nesting: seq<nat>, s: string)
    decreases |s|
  {
    if s == "" then false
    else
      var turn := TurnOf(mode, nesting, s);
      turn.used > |s| || EndsEscaping(turn.mode, turn.nesting, s[turn.used..])
  }

  lemma TurnKeepsOrBlanks(mode: Mode, nesting: seq<nat>, s: string)
    requires s != ""
    ensures var turn := TurnOf(mode, nesting, s);
            && 0 < turn.used == |turn.out| <= |s| + 1
            && (forall k :: 0 <= k < turn.used && k < |s| ==>
                  (turn.out[k] == s[k] || turn.out[k] == ' ') && (s[k] == '\n' <==> turn.out[k] == '\n'))
            && (turn.used > |s| ==> s == "\\" && turn.out == "  ")
  {
  }

  /** Every position keeps its character or becomes a space, line breaks stay, and the length is
      kept; a backslash that ends the text inside a string adds one space. */
  lemma {:induction false} KeepsOrBlanks(mode: Mode, nesting: seq<nat>, s: string)
    ensures |Blanked(mode, nesting, s)| == |s| + if EndsEscaping(mode, nesting, s) then 1 else 0
    ensures forall k :: 0 <= k < |s| ==>
              && (Blanked(mode, nesting, s)[k] == s[k] || Blanked(mode, nesting, s)[k] == ' ')
              && (s[k] == '\n' <==> Blanked(mode, nesting, s)[k] == '\n')
    ensures EndsEscaping(mode, nesting, s) ==> s[|s| - 1] == '\\' && Blanked(mode, nesting, s)[|s|] == ' '
    decreases |s|
  {
    hide TurnOf;
    if s != "" {
      var turn := TurnOf(mode, nesting, s);
      TurnKeepsOrBlanks(mode, nesting, s);
      if turn.used <= |s| {
        var rest := s[turn.used..];
        KeepsOrBlanks(turn.mode, turn.nesting, rest);
        KeptTogether(s, turn.used, turn.out, Blanked(turn.mode, turn.nesting, rest));
      }
    }
  }

  lemma KeptTogether(s: string, used: nat, first: string, second: string)
    requires used == |first| <= |s| <= used + |second|
    requires forall k :: 0 <= k < used ==> (first[k] == s[k] || first[k] == ' ') && (s[k] == '\n' <==> first[k] == '\n')
    requires forall k :: 0 <= k < |s| - used ==>
               && (second[k] == s[used..][k] || second[k] == ' ') && (s[used..][k] == '\n' <==> second[k] == '\n')
    ensures forall k :: 0 <= k < |s| ==>
              && ((first + second)[k] == s[k] || (first + second)[k] == ' ')
              && (s[k] == '\n' <==> (first + second)[k] == '\n')
  {
    forall k | used <= k < |s| ensures (first + second)[k] == second[k - used] && s[k] == s[used..][k - used] {}
  }

  function LineOf(text: string, k: nat): nat
    requires k <= |text|
  {
    if k == 0 then 1 else LineOf(text, k - 1) + if text[k - 1] == '\n' then 1 else 0
  }

  /** The line number computed on the blanked text is the line number in the source. */
  lemma {:induction false} LineNumbersStay(source: string, k: nat)
    requires k <= |source|
    ensures |CodeOnly(source)| >= |source| && LineOf(CodeOnly(source), k) == LineOf(source, k)
  {
    KeepsOrBlanks(Code, [], source);
    if k > 0 {
      LineNumbersStay(source, k - 1);
    }
  }

  /** `forbidden_ts_words` looks in the blanked text only: what it finds stands in the source, at the
      same position and on the same line. */
  lemma FoundWordIsInSource(source: string, k: nat, word: string)
    requires word != "" && ' ' !in word
    requires k + |word| <= |CodeOnly(source)| && CodeOnly(source)[k..k + |word|] == word
    ensures k + |word| <= |source| && source[k..k + |word|] == word
    ensures LineOf(CodeOnly(source), k) == LineOf(source, k)
  {
    KeepsOrBlanks(Code, [], source);
    hide Blanked, EndsEscaping, LineOf;
    FoundCharacters(source, CodeOnly(source), k, word);
    LineNumbersStay(source, k);
  }

  lemma FoundCharacters(source: string, code: string, k: nat, word: string)
    requires word != "" && ' ' !in word && k + |word| <= |code| <= |source| + 1 && code[k..k + |word|] == word
    requires forall j :: 0 <= j < |source| && j < |code| ==> code[j] == source[j] || code[j] == ' '
    requires |code| == |source| + 1 ==> code[|source|] == ' '
    ensures k + |word| <= |source| && source[k..k + |word|] == word
  {
    forall j | 0 <= j < |word| ensures code[k + j] == word[j] && word[j] != ' ' {
      assert code[k..k + |word|][j] == word[j] && word[j] in word;
    }
    assert word[|word| - 1] != ' ' && code[k + |word| - 1] == word[|word| - 1];
  }

  // ---------------------------------------------------------------- well-formed source

  /** One character of a string or template text, escaped or not. */
  datatype Piece = Ordinary(c: char) | Escape(c: char)

  /** Source code as a tree: braces are balanced, strings, comments and templates are closed. */
  datatype Source =
    | End
    | EofComment(text: string)                            // a line comment that ends the file
    | Plain(c: char, rest: Source)
    | Group(inner: Source, rest: Source)                  // { ... }
    | Literal(quote: char, body: seq<Piece>, rest: Source)
    | LineNote(text: string, rest: Source)
    | BlockNote(text: string, rest: Source)
    | Template(parts: Parts, rest: Source)

  datatype Parts = Done | Text(piece: Piece, more: Parts) | Expression(code: Source, more: Parts)

  function ShowPiece(p: Piece): string { if p.Escape? then ['\\', p.c] else [p.c] }

  function ShowPieces(body: seq<Piece>): string {
    if body == [] then "" else ShowPiece(body[0]) + ShowPieces(body[1..])
  }

  function Show(t: Source): string {
    match t
    case End => ""
    case EofComment(text) => "//" + text
    case Plain(c, rest) => [c] + Show(rest)
    case Group(inner, rest) => "{" + (Show(inner) + ("}" + Show(rest)))
    case Literal(quote, body, rest) => [quote] + (ShowPieces(body) + ([quote] + Show(rest)))
    case LineNote(text, rest) => "//" + (text + ("\n" + Show(rest)))
    case BlockNote(text, rest) => "/*" + (text + ("*/" + Show(rest)))
    case Template(parts, rest) => "`" + (ShowParts(parts) + ("`" + Show(rest)))
  }

  function ShowParts(parts: Parts): string {
    match parts
    case Done => ""
    case Text(piece, more) => ShowPiece(piece) + ShowParts(more)
    case Expression(code, more) => "${" + (Show(code) + ("}" + ShowParts(more)))
  }

  /** The same text with exactly the comments and the string and template contents blanked. */
  function Kept(t: Source): string {
    match t
    case End => ""
    case EofComment(text) => "  " + BlankText(text)
    case Plain(c, rest) => [c] + Kept(rest)
    case Group(inner, rest) => "{" + (Kept(inner) + ("}" + Kept(rest)))
    case Literal(quote, body, rest) => [quote] + (BlankText(ShowPieces(body)) + ([quote] + Kept(rest)))
    case LineNote(text, rest) => "  " + (BlankText(text) + ("\n" + Kept(rest)))
    case BlockNote(text, rest) => "  " + (BlankText(text) + ("  " + Kept(rest)))
    case Template(parts, rest) => "`" + (KeptParts(parts) + ("`" + Kept(rest)))
  }

  function KeptParts(parts: Parts): string {
    match parts
    case Done => ""
    case Text(piece, more) => BlankText(ShowPiece(piece)) + KeptParts(more)
    case Expression(code, more) => "${" + (Kept(code) + ("}" + KeptParts(more)))
  }

  /** The text could be read as the second character of a comment opening. */
  predicate OpensComment(t: Source) {
    t.EofComment? || t.LineNote? || t.BlockNote? || (t.Plain? && (t.c == '/' || t.c == '*'))
  }

  /** A code character is no quote and no brace, and a slash begins no comment. */
  predicate PlainFits(c: char, rest: Source) {
    !IsQuote(c) && c != '{' && c != '}' && (c == '/' ==> !OpensComment(rest))
  }

  predicate WellFormed(t: Source, top: bool) {
    match t
    case End => true
    case EofComment(text) => top && '\n' !in text
    case Plain(c, rest) => PlainFits(c, rest) && WellFormed(rest, top)
    case Group(inner, rest) => WellFormed(inner, false) && WellFormed(rest, top)
    case Literal(quote, body, rest) =>
      (quote == '"' || quote == '\'') && (forall p :: p in body ==> PieceFits(p, quote)) && WellFormed(rest, top)
    case LineNote(text, rest) => '\n' !in text && WellFormed(rest, top)
    case BlockNote(text, rest) => NoClose(text) && WellFormed(rest, top)
    case Template(parts, rest) => PartsFit(parts) && WellFormed(rest, top)
  }

  predicate PieceFits(p: Piece, quote: char) { p.Ordinary? ==> p.c != quote && p.c != '\\' }

  predicate NoClose(text: string) {
    forall k :: 0 <= k < |text| - 1 ==> !(text[k] == '*' && text[k + 1] == '/')
  }

  /** A dollar in template text is not followed by a brace. */
  predicate PartsFit(parts: Parts) {
    match parts
    case Done => true
    case Text(piece, more) =>
      && PieceFits(piece, '`') && PartsFit(more)
      && (piece == Ordinary('$') ==> !(more.Text? && more.piece == Ordinary('{')))
    case Expression(code, more) => WellFormed(code, false) && PartsFit(more)
  }

  // One turn, unfolded.
  lemma TakeTurn(mode: Mode, nesting: seq<nat>, s: string, turn: Turn, rest: string)
    requires s != "" && turn == TurnOf(mode, nesting, s) && turn.used <= |s| && rest == s[turn.used..]
    ensures Blanked(mode, nesting, s) == turn.out + Blanked(turn.mode, turn.nesting, rest)
  {
  }

  lemma {:induction false} LineBlanks(text: string, nesting: seq<nat>, tail: string)
    requires '\n' !in text
    ensures Blanked(LineComment, nesting, text + tail) == BlankText(text) + Blanked(LineComment, nesting, tail)
  {
    if text == "" {
      assert text + tail == tail;
    } else {
      assert text[0] in text;
      assert (text + tail)[1..] == text[1..] + tail;
      TakeTurn(LineComment, nesting, text + tail, Turn(1, [' '], LineComment, nesting), text[1..] + tail);
      LineBlanks(text[1..], nesting, tail);
      assert BlankText(text) == [' '] + BlankText(text[1..]);
    }
  }

  // One character of a block comment, before its end.
  lemma BlockTurn(text: string, nesting: seq<nat>, tail: string)
    requires NoClose(text) && text != ""
    ensures NoClose(text[1..])
    ensures Blanked(BlockComment, nesting, text + ("*/" + tail))
              == [BlankChar(text[0])] + Blanked(BlockComment, nesting, text[1..] + ("*/" + tail))
  {
    hide Blanked;
    var s, rest := text + ("*/" + tail), text[1..];
    forall k | 0 <= k < |rest| - 1 ensures !(rest[k] == '*' && rest[k + 1] == '/') {
      assert rest[k] == text[k + 1] && rest[k + 1] == text[k + 1 + 1];
    }
    assert s[1..] == rest + ("*/" + tail);
    assert s[0] == text[0] && (|text| > 1 ==> s[1] == text[1]) && (|text| == 1 ==> s[1] == '*');
    TakeTurn(BlockComment, nesting, s, Turn(1, [BlankChar(text[0])], BlockComment, nesting), rest + ("*/" + tail));
  }

  lemma {:induction false} BlockBlanks(text: string, nesting: seq<nat>, tail: string)
    requires NoClose(text)
    ensures Blanked(BlockComment, nesting, text + ("*/" + tail)) == BlankText(text) + ("  " + Blanked(Code, nesting, tail))
  {
    hide Blanked, NoClose;
    if text == "" {
      var s := text + ("*/" + tail);
      assert s == "*/" + tail && s[2..] == tail;
      TakeTurn(BlockComment, nesting, s, Turn(2, "  ", Code, nesting), tail);
    } else {
      BlockTurn(text, nesting, tail);
      BlockBlanks(text[1..], nesting, tail);
      assert BlankText(text) == [BlankChar(text[0])] + BlankText(text[1..]);
    }
  }

  lemma PieceBlanks(p: Piece, quote: char, nesting: seq<nat>, tail: string)
    requires PieceFits(p, quote)
    requires quote == '`' && p == Ordinary('$') ==> tail != "" && tail[0] != '{'
    ensures Blanked(Quoted(quote), nesting, ShowPiece(p) + tail) == BlankText(ShowPiece(p)) + Blanked(Quoted(quote), nesting, tail)
  {
    var s := ShowPiece(p) + tail;
    assert s[|ShowPiece(p)|..] == tail;
    if p.Escape? {
      assert BlankText(ShowPiece(p)) == [' ', BlankChar(p.c)];
      TakeTurn(Quoted(quote), nesting, s, Turn(2, [' ', BlankChar(p.c)], Quoted(quote), nesting), tail);
    } else {
      assert s[0] == p.c && (s[0] == '$' && quote == '`' ==> s[1] == tail[0]);
      assert BlankText(ShowPiece(p)) == [BlankChar(p.c)];
      TakeTurn(Quoted(quote), nesting, s, Turn(1, [BlankChar(p.c)], Quoted(quote), nesting), tail);
    }
  }

  lemma BlankConcat(a: string, b: string)
    ensures BlankText(a + b) == BlankText(a) + BlankText(b)
  {
  }

  lemma Assoc(a: string, b: string, c: string)
    ensures (a + b) + c == a + (b + c)
  {
  }

  // Text between two marks, regrouped.
  lemma Between(open: string, text: string, close: string, rest: string, tail: string)
    ensures (open + (text + (close + rest))) + tail == open + (text + (close + (rest + tail)))
  {
  }

  lemma {:induction false} PiecesBlank(body: seq<Piece>, quote: char, nesting: seq<nat>, tail: string)
    requires quote != '`' && forall p :: p in body ==> PieceFits(p, quote)
    ensures Blanked(Quoted(quote), nesting, ShowPieces(body) + tail)
              == BlankText(ShowPieces(body)) + Blanked(Quoted(quote), nesting, tail)
  {
    if body == [] {
      assert ShowPieces(body) + tail == tail;
    } else {
      hide Blanked, BlankText, PieceFits;
      var more := ShowPieces(body[1..]);
      assert ShowPieces(body) == ShowPiece(body[0]) + more;
      hide ShowPieces, ShowPiece;
      Assoc(ShowPiece(body[0]), more, tail);
      PieceBlanks(body[0], quote, nesting, more + tail);
      PiecesBlank(body[1..], quote, nesting, tail);
      BlankConcat(ShowPiece(body[0]), more);
      Assoc(BlankText(ShowPiece(body[0])), BlankText(more), Blanked(Quoted(quote), nesting, tail));
    }
  }

  /** What may follow a piece of source: the end of the file, or the brace that closes it. */
  predicate Follows(tail: string, top: bool) {
    if top then tail == "" else tail != "" && tail[0] == '}'
  }

  lemma ShowOpens(t: Source, top: bool, tail: string)
    requires WellFormed(t, top) && Follows(tail, top) && !OpensComment(t)
    ensures var s := Show(t) + tail; s == "" || (s[0] != '/' && s[0] != '*')
  {
  }

  // The braces of a group leave the nesting as it was.
  function Inside(nesting: seq<nat>): seq<nat> {
    if nesting == [] then [] else Deeper(nesting)
  }

  lemma OpenBrace(nesting: seq<nat>, tail: string)
    ensures Blanked(Code, nesting, "{" + tail) == "{" + Blanked(Code, Inside(nesting), tail)
  {
    TakeTurn(Code, nesting, "{" + tail, Turn(1, "{", Code, Inside(nesting)), tail);
  }

  lemma CloseBrace(nesting: seq<nat>, tail: string)
    ensures Blanked(Code, Inside(nesting), "}" + tail) == "}" + Blanked(Code, nesting, tail)
  {
    if nesting != [] {
      assert Deeper(nesting)[|nesting| - 1 := nesting[|nesting| - 1]] == nesting;
    }
    TakeTurn(Code, Inside(nesting), "}" + tail, Turn(1, "}", Code, nesting), tail);
  }

  lemma OpenExpression(nesting: seq<nat>, tail: string)
    ensures Blanked(Quoted('`'), nesting, "${" + tail) == "${" + Blanked(Code, nesting + [0], tail)
  {
    assert ("${" + tail)[2..] == tail;
    TakeTurn(Quoted('`'), nesting, "${" + tail, Turn(2, "${", Code, nesting + [0]), tail);
  }

  lemma CloseExpression(nesting: seq<nat>, tail: string)
    ensures Blanked(Code, nesting + [0], "}" + tail) == "}" + Blanked(Quoted('`'), nesting, tail)
  {
    assert (nesting + [0])[..|nesting|] == nesting;
    TakeTurn(Code, nesting + [0], "}" + tail, Turn(1, "}", Quoted('`'), nesting), tail);
  }

  lemma OpenQuote(quote: char, nesting: seq<nat>, tail: string)
    requires IsQuote(quote)
    ensures Blanked(Code, nesting, [quote] + tail) == [quote] + Blanked(Quoted(quote), nesting, tail)
  {
    TakeTurn(Code, nesting, [quote] + tail, Turn(1, [quote], Quoted(quote), nesting), tail);
  }

  lemma CloseQuote(quote: char, nesting: seq<nat>, tail: string)
    requires IsQuote(quote)
    ensures Blanked(Quoted(quote), nesting, [quote] + tail) == [quote] + Blanked(Code, nesting, tail)
  {
    TakeTurn(Quoted(quote), nesting, [quote] + tail, Turn(1, [quote], Code, nesting), tail);
  }

  lemma OpenComment(opening: string, nesting: seq<nat>, tail: string)
    requires opening == "//" || opening == "/*"
    ensures Blanked(Code, nesting, opening + tail)
              == "  " + Blanked(if opening == "//" then LineComment else BlockComment, nesting, tail)
  {
    assert (opening + tail)[2..] == tail;
    TakeTurn(Code, nesting, opening + tail,
             Turn(2, "  ", if opening == "//" then LineComment else BlockComment, nesting), tail);
  }

  lemma EndLine(nesting: seq<nat>, tail: string)
    ensures Blanked(LineComment, nesting, "\n" + tail) == "\n" + Blanked(Code, nesting, tail)
  {
    TakeTurn(LineComment, nesting, "\n" + tail, Turn(1, "\n", Code, nesting), tail);
  }

  lemma PlainBlanks(c: char, rest: Source, top: bool, nesting: seq<nat>, tail: string)
    requires PlainFits(c, rest) && WellFormed(rest, top) && Follows(tail, top)
    ensures Blanked(Code, nesting, [c] + (Show(rest) + tail)) == [c] + Blanked(Code, nesting, Show(rest) + tail)
  {
    var s := [c] + (Show(rest) + tail);
    if c == '/' {
      ShowOpens(rest, top, tail);
      assert !At(s, '/', '/') && !At(s, '/', '*');
    }
    TakeTurn(Code, nesting, s, Turn(1, [c], Code, nesting), Show(rest) + tail);
  }

  /** Lexer correctness, one level at a time: in any nesting of template expressions, code is kept
      and what a tree marks as comment or string contents is blanked, up to what follows it. */
  lemma {:induction false} TreeBlanks(t: Source, top: bool, nesting: seq<nat>, tail: string)
    requires WellFormed(t, top) && Follows(tail, top)
    ensures Blanked(Code, nesting, Show(t) + tail) == Kept(t) + Blanked(Code, nesting, tail)
    decreases t
  {
    hide Blanked, BlankText, PlainFits, NoClose, PieceFits, IsQuote, Follows;
    match t
    case End =>
      assert "" + tail == tail && "" + Blanked(Code, nesting, tail) == Blanked(Code, nesting, tail);
    case EofComment(text) => EofBlanks(text, nesting, tail, top);
    case Plain(c, rest) =>
      TreeBlanks(rest, top, nesting, tail);
      PlainBlanks(c, rest, top, nesting, tail);
      Assoc([c], Show(rest), tail);
      Assoc([c], Kept(rest), Blanked(Code, nesting, tail));
    case Group(inner, rest) =>
      TreeBlanks(rest, top, nesting, tail);
      BraceFollows(Show(rest) + tail);
      TreeBlanks(inner, false, Inside(nesting), "}" + (Show(rest) + tail));
      GroupBlanks(inner, Show(rest), Kept(rest), nesting, tail);
    case Literal(quote, body, rest) =>
      TreeBlanks(rest, top, nesting, tail);
      LiteralBlanks(quote, body, Show(rest), Kept(rest), nesting, tail);
    case LineNote(text, rest) =>
      TreeBlanks(rest, top, nesting, tail);
      LineNoteBlanks(text, Show(rest), Kept(rest), nesting, tail);
    case BlockNote(text, rest) =>
      TreeBlanks(rest, top, nesting, tail);
      BlockNoteBlanks(text, Show(rest), Kept(rest), nesting, tail);
    case Template(parts, rest) =>
      TreeBlanks(rest, top, nesting, tail);
      PartsBlank(parts, nesting, Show(rest) + tail);
      TemplateBlanks(parts, Show(rest), Kept(rest), nesting, tail);
  }

  lemma {:induction false} PartsBlank(parts: Parts, nesting: seq<nat>, tail: string)
    requires PartsFit(parts)
    ensures Blanked(Quoted('`'), nesting, ShowParts(parts) + ("`" + tail))
              == KeptParts(parts) + ("`" + Blanked(Code, nesting, tail))
    decreases parts
  {
    hide Blanked, BlankText, PieceFits;
    match parts
    case Done =>
      CloseQuote('`', nesting, tail);
      assert "" + ("`" + tail) == "`" + tail;
      assert "" + ("`" + Blanked(Code, nesting, tail)) == "`" + Blanked(Code, nesting, tail);
    case Text(piece, more) =>
      PartsBlank(more, nesting, tail);
      Assoc(ShowPiece(piece), ShowParts(more), "`" + tail);
      if piece == Ordinary('$') {
        NoBraceNext(more, tail);
      }
      PieceBlanks(piece, '`', nesting, ShowParts(more) + ("`" + tail));
      Assoc(BlankText(ShowPiece(piece)), KeptParts(more), "`" + Blanked(Code, nesting, tail));
    case Expression(code, more) =>
      PartsBlank(more, nesting, tail);
      var after := ShowParts(more) + ("`" + tail);
      BraceFollows(after);
      TreeBlanks(code, false, nesting + [0], "}" + after);
      ExpressionBlanks(code, ShowParts(more), KeptParts(more), nesting, tail);
  }

  lemma BraceFollows(tail: string)
    ensures Follows("}" + tail, false)
  {
  }

  lemma NoBraceNext(more: Parts, tail: string)
    requires !(more.Text? && more.piece == Ordinary('{'))
    ensures var s := ShowParts(more) + ("`" + tail); s != "" && s[0] != '{'
  {
  }

  lemma EofBlanks(text: string, nesting: seq<nat>, tail: string, top: bool)
    requires WellFormed(EofComment(text), top) && Follows(tail, top)
    ensures Blanked(Code, nesting, Show(EofComment(text)) + tail) == Kept(EofComment(text)) + Blanked(Code, nesting, tail)
  {
    assert tail == "" && text + tail == text && ("//" + text) + tail == "//" + text;
    OpenComment("//", nesting, text);
    LineBlanks(text, nesting, tail);
    assert Blanked(LineComment, nesting, tail) == "" && Blanked(Code, nesting, tail) == "";
  }

  lemma GroupBlanks(inner: Source, shown: string, kept: string, nesting: seq<nat>, tail: string)
    requires Blanked(Code, nesting, shown + tail) == kept + Blanked(Code, nesting, tail)
    requires Blanked(Code, Inside(nesting), Show(inner) + ("}" + (shown + tail)))
               == Kept(inner) + Blanked(Code, Inside(nesting), "}" + (shown + tail))
    ensures Blanked(Code, nesting, ("{" + (Show(inner) + ("}" + shown))) + tail)
              == ("{" + (Kept(inner) + ("}" + kept))) + Blanked(Code, nesting, tail)
  {
    hide Blanked, Show, Kept, Inside;
    var end := Blanked(Code, nesting, tail);
    OpenBrace(nesting, Show(inner) + ("}" + (shown + tail)));
    CloseBrace(nesting, shown + tail);
    Between("{", Show(inner), "}", shown, tail);
    Between("{", Kept(inner), "}", kept, end);
  }

  lemma LiteralBlanks(quote: char, body: seq<Piece>, shown: string, kept: string, nesting: seq<nat>, tail: string)
    requires (quote == '"' || quote == '\'') && forall p :: p in body ==> PieceFits(p, quote)
    requires Blanked(Code, nesting, shown + tail) == kept + Blanked(Code, nesting, tail)
    ensures Blanked(Code, nesting, ([quote] + (ShowPieces(body) + ([quote] + shown))) + tail)
              == ([quote] + (BlankText(ShowPieces(body)) + ([quote] + kept))) + Blanked(Code, nesting, tail)
  {
    assert IsQuote(quote);
    hide Blanked, BlankText, ShowPieces, PieceFits, IsQuote;
    var end, text, blank := Blanked(Code, nesting, tail), ShowPieces(body), BlankText(ShowPieces(body));
    OpenQuote(quote, nesting, text + ([quote] + (shown + tail)));
    PiecesBlank(body, quote, nesting, [quote] + (shown + tail));
    CloseQuote(quote, nesting, shown + tail);
    Between([quote], text, [quote], shown, tail);
    Between([quote], blank, [quote], kept, end);
  }

  lemma LineNoteBlanks(text: string, shown: string, kept: string, nesting: seq<nat>, tail: string)
    requires '\n' !in text && Blanked(Code, nesting, shown + tail) == kept + Blanked(Code, nesting, tail)
    ensures Blanked(Code, nesting, ("//" + (text + ("\n" + shown))) + tail)
              == ("  " + (BlankText(text) + ("\n" + kept))) + Blanked(Code, nesting, tail)
  {
    hide Blanked, BlankText;
    var end := Blanked(Code, nesting, tail);
    OpenComment("//", nesting, text + ("\n" + (shown + tail)));
    LineBlanks(text, nesting, "\n" + (shown + tail));
    EndLine(nesting, shown + tail);
    Between("//", text, "\n", shown, tail);
    Between("  ", BlankText(text), "\n", kept, end);
  }

  lemma BlockNoteBlanks(text: string, shown: string, kept: string, nesting: seq<nat>, tail: string)
    requires NoClose(text) && Blanked(Code, nesting, shown + tail) == kept + Blanked(Code, nesting, tail)
    ensures Blanked(Code, nesting, ("/*" + (text + ("*/" + shown))) + tail)
              == ("  " + (BlankText(text) + ("  " + kept))) + Blanked(Code, nesting, tail)
  {
    hide Blanked, BlankText, NoClose;
    var end := Blanked(Code, nesting, tail);
    OpenComment("/*", nesting, text + ("*/" + (shown + tail)));
    BlockBlanks(text, nesting, shown + tail);
    Between("/*", text, "*/", shown, tail);
    Between("  ", BlankText(text), "  ", kept, end);
  }

  lemma TemplateBlanks(parts: Parts, shown: string, kept: string, nesting: seq<nat>, tail: string)
    requires Blanked(Quoted('`'), nesting, ShowParts(parts) + ("`" + (shown + tail)))
               == KeptParts(parts) + ("`" + Blanked(Code, nesting, shown + tail))
    requires Blanked(Code, nesting, shown + tail) == kept + Blanked(Code, nesting, tail)
    ensures Blanked(Code, nesting, ("`" + (ShowParts(parts) + ("`" + shown))) + tail)
              == ("`" + (KeptParts(parts) + ("`" + kept))) + Blanked(Code, nesting, tail)
  {
    hide Blanked, ShowParts, KeptParts;
    var end := Blanked(Code, nesting, tail);
    OpenQuote('`', nesting, ShowParts(parts) + ("`" + (shown + tail)));
    Between("`", ShowParts(parts), "`", shown, tail);
    Between("`", KeptParts(parts), "`", kept, end);
  }

  lemma ExpressionBlanks(code: Source, shown: string, kept: string, nesting: seq<nat>, tail: string)
    requires var after := shown + ("`" + tail);
             && Blanked(Quoted('`'), nesting, after) == kept + ("`" + Blanked(Code, nesting, tail))
             && Blanked(Code, nesting + [0], Show(code) + ("}" + after))
                  == Kept(code) + Blanked(Code, nesting + [0], "}" + after)
    ensures Blanked(Quoted('`'), nesting, ("${" + (Show(code) + ("}" + shown))) + ("`" + tail))
              == ("${" + (Kept(code) + ("}" + kept))) + ("`" + Blanked(Code, nesting, tail))
  {
    hide Blanked, Show, Kept;
    var end, after := Blanked(Code, nesting, tail), shown + ("`" + tail);
    OpenExpression(nesting, Show(code) + ("}" + after));
    CloseExpression(nesting, after);
    Between("${", Show(code), "}", shown, "`" + tail);
    Between("${", Kept(code), "}", kept, "`" + end);
  }

  /** Lexer correctness: of every well-formed source, exactly the comments and the contents of strings
      and templates are blanked; template expressions are code, however deeply they nest. */
  lemma BlanksExactly(t: Source)
    requires WellFormed(t, true)
    ensures CodeOnly(Show(t)) == Kept(t)
  {
    TreeBlanks(t, true, [], "");
    assert Show(t) + "" == Show(t) && Kept(t) + "" == Kept(t);
  }
}
