/** The example-based tests of the repository, each stated as a fact about the
    model: tests/test_lexer.py, tests/test_utils.py and the example tests of
    tests/char/test_lexer.py. */
module Scenarios {
  import opened Parsy
  import opened Utils
  import Char
  import Lexer
  import opened CharLexer
  import Layout

  /** The `\w` class of the tests' regexes, restricted to ASCII. */
  predicate IsWordChar(c: char) {
    ('a' <= c <= 'z') || ('A' <= c <= 'Z') || ('0' <= c <= '9') || c == '_'
  }

  /** `parsy.regex(r'\w+')` */
  function Word(): Parser<string> {
    Regex(IsWordChar, true)
  }

  predicate AllSpace(ws: string) {
    forall k :: 0 <= k < |ws| ==> Char.IsSpace(ws[k])
  }

  /** Python's `''` from `try_` joins text like any other string. */
  function TriedText(t: Tried<string>): string {
    match t case Got(v) => v case Empty => ""
  }

  // tests/test_utils.py

  /** `test_try`: `try_(string('let')) + string('lexical')` parses "lexical":
      the failed `let` yields '' and gives the whole input back. */
  lemma TryThenLexical()
    ensures Parse(Plus(Map(Try(Literal("let")), TriedText), Literal("lexical")), "lexical") == Ok("lexical", 7)
  {
    TryLetLexical();
    assert Map(Try(Literal("let")), TriedText)("lexical", 0) == Ok("", 0);
    assert "" + "lexical" == "lexical";
  }

  // tests/test_lexer.py

  /** `test_space`: on input made only of white space, `space()` succeeds with
      '' and consumes it all. */
  lemma SpaceConsumesAll(ws: string)
    requires AllSpace(ws)
    ensures Parse(Lexer.Space(), ws) == Ok("", |ws|)
  {
    assert ws + [] == ws;
    Lexer.SpaceStopsAtText(ws, []);
  }

  /** `test_space` on its five inputs. */
  lemma SpaceExamples()
    ensures Parse(Lexer.Space(), "") == Ok("", 0)
    ensures Parse(Lexer.Space(), " ") == Ok("", 1)
    ensures Parse(Lexer.Space(), "  ") == Ok("", 2)
    ensures Parse(Lexer.Space(), "   \n") == Ok("", 4)
    ensures Parse(Lexer.Space(), "\t  ") == Ok("", 3)
  {
    SpaceConsumesAll("");
    SpaceConsumesAll(" ");
    SpaceConsumesAll("  ");
    SpaceConsumesAll("   \n");
    SpaceConsumesAll("\t  ");
  }

  /** `test_space2`: after any white space, `space() + regex('.*')` leaves
      "x y" for the regex, which returns it. */
  lemma SpaceLeavesText(ws: string)
    requires AllSpace(ws)
    ensures Parse(Plus(Lexer.Space(), Regex(NotNewline, false)), ws + "x y") == Ok("x y", |ws| + 3)
  {
    var s := ws + "x y";
    Lexer.SpaceStopsAtText(ws, "x y");
    assert s[|ws|..|s|] == "x y";
    forall k | |ws| <= k < |s|
      ensures NotNewline(s[k])
    {
      assert s[k] == "x y"[k - |ws|];
    }
    SpanThrough(s, |ws|, |s|, NotNewline);
    assert "" + "x y" == "x y";
  }

  /** `test_space3`: with `skip_line_comment('//')` as the line-comment
      parser, `space` skips the white space and then the comment. */
  lemma SpaceSkipsComment(ws: string)
    requires AllSpace(ws)
    ensures Parse(Lexer.Space(Char.Space(), SkipLineComment("//")), ws + "// comment") == Ok("", |ws| + 10)
  {
    var s := ws + "// comment";
    Lexer.SpaceStopsAtText(ws, "// comment");
    Lexer.SpaceDefault(Char.Space(), s, 0);
    Lexer.SpaceOnePass(Char.Space(), SkipLineComment("//"), Failure(), s, 0);
    assert s[|ws|..|ws| + 2] == "//";
    assert Span(s, |ws| + 2, NotNewline) == |s| by {
      forall k | |ws| + 2 <= k < |s|
        ensures NotNewline(s[k])
      {
        assert s[k] == "// comment"[k - |ws|];
      }
      SpanThrough(s, |ws| + 2, |s|, NotNewline);
    }
  }

  /** megaparsy's `space` makes one pass: after a line comment it does not
      return to the white space, so a second comment line is left unread. */
  lemma SpaceStopsAfterOneComment()
    ensures Lexer.Space(Char.Space(), SkipLineComment("#"))("# a\n# b", 0) == Ok("", 3)
  {
    var s := "# a\n# b";
    Lexer.SpaceOnePass(Char.Space(), SkipLineComment("#"), Failure(), s, 0);
    assert s[0..1] == "#";
  }

  /** Words, each followed by its run of white space. */
  function Spaced(ws: seq<string>, gaps: seq<string>): string
    requires |ws| == |gaps|
  {
    if ws == [] then "" else ws[0] + gaps[0] + Spaced(ws[1..], gaps[1..])
  }

  predicate AllWord(w: string) {
    forall k :: 0 <= k < |w| ==> IsWordChar(w[k])
  }

  /** The inputs of `test_lexeme`'s shape: non-empty words with white space
      after each, and at least one white-space character between two words. */
  predicate WordList(ws: seq<string>, gaps: seq<string>) {
    && |ws| == |gaps|
    && (forall k :: 0 <= k < |ws| ==> |ws[k]| > 0 && AllWord(ws[k]) && AllSpace(gaps[k]))
    && (forall k :: 0 <= k < |ws| - 1 ==> |gaps[k]| > 0)
  }

  /** `test_lexeme`: `lexeme(regex(r'\w+')).many()` reads the words of such an
      input in order and consumes it all; "one two three\nfour five six " is
      the instance with six words. */
  lemma LexemesRead(ws: seq<string>, gaps: seq<string>)
    requires WordList(ws, gaps)
    ensures Parse((RegexSound(IsWordChar, true); Char.SpaceSound(); Lexer.LexemeSound(Word(), Char.Space());
                   Many(Lexer.Lexeme(Word()))), Spaced(ws, gaps))
            == Ok(ws, |Spaced(ws, gaps)|)
  {
    RegexSound(IsWordChar, true);
    Char.SpaceSound();
    Lexer.LexemeSound(Word(), Char.Space());
    assert [] + Spaced(ws, gaps) == Spaced(ws, gaps);
    LexemesFrom([], ws, gaps);
  }

  lemma {:induction false} LexemesFrom(t: string, ws: seq<string>, gaps: seq<string>)
    requires WordList(ws, gaps)
    requires Advancing(Lexer.Lexeme(Word()))
    ensures ManyFrom(Lexer.Lexeme(Word()), t + Spaced(ws, gaps), |t|) == Ok(ws, |t + Spaced(ws, gaps)|)
    decreases |ws|
  {
    var p, s := Lexer.Lexeme(Word()), t + Spaced(ws, gaps);
    if ws == [] {
      assert s == t;
      assert p(s, |t|).Fail?;
    } else {
      var w, g, rest := ws[0], gaps[0], Spaced(ws[1..], gaps[1..]);
      var t' := t + w + g;
      assert s == t' + rest;
      assert WordList(ws[1..], gaps[1..]);
      WordThenGap(t, w, g, rest, ws[1..] == []);
      LexemesFrom(t', ws[1..], gaps[1..]);
      assert [w] + ws[1..] == ws;
    }
  }

  /** One lexeme in the middle of the input: the word `w` after `t`, then the
      white space `g`, then either nothing or another word. */
  lemma WordThenGap(t: string, w: string, g: string, rest: string, last: bool)
    requires |w| > 0 && AllWord(w) && AllSpace(g)
    requires last ==> rest == []
    requires !last ==> |g| > 0 && |rest| > 0 && IsWordChar(rest[0])
    ensures Lexer.Lexeme(Word())(t + w + g + rest, |t|) == Ok(w, |t + w + g|)
  {
    var s := t + w + g + rest;
    var j, k := |t| + |w|, |t| + |w| + |g|;
    assert forall m :: |t| <= m < j ==> s[m] == w[m - |t|];
    assert forall m :: j <= m < k ==> s[m] == g[m - j];
    SpanThrough(s, |t|, j, IsWordChar);
    SpanThrough(s, j, k, Char.IsSpace);
    Char.SpaceSkipsRun(s, j);
    assert s[|t|..j] == w;
  }

  /** `test_symbol`: repeated `symbol('foo')` reads the three symbols. */
  lemma SymbolExample()
    ensures Parse((LiteralSound("foo"); Char.SpaceSound(); Lexer.LexemeSound(Literal("foo"), Char.Space());
                   Many(Lexer.Symbol("foo"))), SymbolsInput())
            == Ok(["foo", "foo", "foo"], 12)
  {
    LiteralSound("foo");
    Char.SpaceSound();
    Lexer.LexemeSound(Literal("foo"), Char.Space());
    SymbolSteps();
    ManyCollects(Lexer.Symbol("foo"), SymbolsInput(), [0, 4, 8, 12], ["foo", "foo", "foo"]);
  }

  function SymbolsInput(): string {
    "foo foo\nfoo "
  }

  /** One `symbol(w)`: `w` is at `i` and the white space after it runs to `k`. */
  lemma SymbolStep(w: string, s: string, i: nat, k: nat)
    requires i + |w| <= |s| && s[i..i + |w|] == w
    requires Span(s, i + |w|, Char.IsSpace) == k
    ensures Lexer.Symbol(w)(s, i) == Ok(w, k)
  {
    Lexer.SymbolMatches(w, Char.Space(), s, i);
    Char.SpaceSkipsRun(s, i + |w|);
  }

  lemma SymbolSteps()
    ensures Lexer.Symbol("foo")(SymbolsInput(), 0) == Ok("foo", 4)
    ensures Lexer.Symbol("foo")(SymbolsInput(), 4) == Ok("foo", 8)
    ensures Lexer.Symbol("foo")(SymbolsInput(), 8) == Ok("foo", 12)
    ensures Lexer.Symbol("foo")(SymbolsInput(), 12).Fail?
  {
    var s := SymbolsInput();
    assert s[0..3] == "foo" && s[4..7] == "foo" && s[8..11] == "foo";
    SymbolStep("foo", s, 0, 4);
    SymbolStep("foo", s, 4, 8);
    SymbolStep("foo", s, 8, 12);
  }

  // tests/char/test_lexer.py

  /** `test_skip_line_comment`: a comment needs no line feed after it; it
      runs to the end of the input. */
  lemma SkipLineCommentToEnd(body: string)
    requires forall k :: 0 <= k < |body| ==> body[k] != '\n'
    ensures Parse(SkipLineComment("//"), "//" + body) == Ok("", |body| + 2)
  {
    var s := "//" + body;
    assert s[0..2] == "//";
    SpanThrough(s, 2, |s|, NotNewline);
  }

  /** `test_skip_line_comment`: the line feed that ends a comment is left for
      the next parser. */
  lemma SkipLineCommentKeepsNewline(body: string)
    requires forall k :: 0 <= k < |body| ==> body[k] != '\n'
    ensures Parse(Plus(SkipLineComment("//"), Literal("\n")), "//" + body + "\n") == Ok("\n", |body| + 3)
  {
    var s := "//" + body + "\n";
    assert s[0..2] == "//";
    assert s[|body| + 2..|s|] == "\n";
    SpanThrough(s, 2, |body| + 2, NotNewline);
    assert "" + "\n" == "\n";
  }

  /** `test_indent_guard`: `indent_guard(space(), gt, 4)` fails on two and
      on four spaces and returns the column 6 on six. */
  lemma IndentGuardExamples()
    ensures Parse(IndentGuard((Lexer.DefaultSpaceSound(); Lexer.Space()), Gt, 4), "  ").Fail?
    ensures Parse(IndentGuard((Lexer.DefaultSpaceSound(); Lexer.Space()), Gt, 4), "    ").Fail?
    ensures Parse(IndentGuard((Lexer.DefaultSpaceSound(); Lexer.Space()), Gt, 4), "      ") == Ok(6, 6)
  {
    Lexer.SpaceDefault(Char.Space(), "  ", 0);
    Lexer.SpaceDefault(Char.Space(), "    ", 0);
    Lexer.SpaceDefault(Char.Space(), "      ", 0);
  }

  /** `test_non_indented`: `non_indented(space(), symbol('one'))` reads "one"
      at the start of a line and fails on an indented one. */
  lemma NonIndentedExamples()
    ensures Parse(NonIndented((Lexer.DefaultSpaceSound(); Lexer.Space()), Lexer.Symbol("one")), "\none\n") == Ok("one", 5)
    ensures Parse(NonIndented((Lexer.DefaultSpaceSound(); Lexer.Space()), Lexer.Symbol("one")), "\n    one\n").Fail?
  {
    Lexer.SpaceDefault(Char.Space(), "\none\n", 0);
    Lexer.SpaceDefault(Char.Space(), "\n    one\n", 0);
  }

  // test_line_fold

  /** The successes of `q` that stay inside the input and do not move
      backwards; on a sound `q` it is `q` itself (`ClampKeeps`). It lets the
      test's callback below take any consumer while `many` needs a sound one. */
  function Clamp(q: Parser<string>): Parser<string> {
    (s: string, i: nat) =>
      match q(s, i)
      case Ok(v, j) => if i <= j <= |s| then Ok(v, j) else Fail
      case Fail => Fail
  }

  lemma ClampSound(q: Parser<string>)
    ensures Sound(Clamp(q))
  {
  }

  /** On a sound consumer the clamp changes nothing. No proof below calls this
      lemma: `LineFoldCollects` depends on the clamp only through the fold's
      consumer staying inside the input (`Layout.FoldSpaceSound`), which lets
      each of its steps pass the clamp unchanged. */
  lemma ClampKeeps(q: Parser<string>, s: string, i: nat)
    requires Sound(q) && i <= |s|
    ensures Clamp(q)(s, i) == q(s, i)
  {
  }

  /** The callback of `test_line_fold`: `lexeme(regex(r'\w+'), sc_).many()`
      over the fold's white-space consumer `sc_`. */
  function FoldWords(fold: Parser<Tried<string>>): Parser<seq<string>> {
    RegexSound(IsWordChar, true);
    ClampSound(Map(fold, TriedText));
    Lexer.LexemeSound(Word(), Clamp(Map(fold, TriedText)));
    Many(Lexer.Lexeme(Word(), Clamp(Map(fold, TriedText))))
  }

  /** `line_fold(space(), callback) << regex(r'\w+')` */
  function FoldThenWord(): Parser<seq<string>> {
    Lexer.DefaultSpaceSound();
    Skip(LineFold(Lexer.Space(), FoldWords), Word())
  }

  predicate IsWord(w: string) {
    |w| > 0 && AllWord(w)
  }

  function Indent(n: nat): string {
    seq(n, _ => ' ')
  }

  /** A line break and the next line's indentation. */
  function Break(n: nat): string {
    "\n" + Indent(n)
  }

  /** Continuation lines: a line break, the indentation, one word. */
  function Folded(ws: seq<string>, ins: seq<nat>): string
    requires |ws| == |ins|
  {
    if ws == [] then "" else Break(ins[0]) + ws[0] + Folded(ws[1..], ins[1..])
  }

  /** The line after the fold. */
  function Tail(m: nat, last: string): string {
    Break(m) + last
  }

  /** The inputs of `test_line_fold`: a first word indented by `n0`, then one
      word on each continuation line, indented by `ins`, then `last` on a line
      indented by `m`. The test's two inputs are `n0 = 0, ins = [4, 4, 8],
      m = 0` and `n0 = 4, ins = [8, 8, 12], m = 4`, with the words "one" to
      "four" and "five" last. */
  function FoldInput(n0: nat, w0: string, ws: seq<string>, ins: seq<nat>, m: nat, last: string): string
    requires |ws| == |ins|
  {
    Indent(n0) + w0 + Folded(ws, ins) + Tail(m, last)
  }

  predicate FoldShape(n0: nat, w0: string, ws: seq<string>, ins: seq<nat>, m: nat, last: string) {
    && IsWord(w0) && IsWord(last) && m <= n0
    && |ws| == |ins|
    && (forall k :: 0 <= k < |ws| ==> IsWord(ws[k]) && ins[k] > n0)
  }

  /** `test_line_fold`: the fold collects the first word and every word on a
      line indented past the fold's start column, stops before the line that
      is not, and leaves that line's word to the parser after it. */
  lemma LineFoldCollects(n0: nat, w0: string, ws: seq<string>, ins: seq<nat>, m: nat, last: string)
    requires FoldShape(n0, w0, ws, ins, m, last)
    ensures Parse(FoldThenWord(), FoldInput(n0, w0, ws, ins, m, last))
            == Ok([w0] + ws, |FoldInput(n0, w0, ws, ins, m, last)|)
  {
    FoldThenWordReads(n0, w0, ws, ins, m, last);
    ParseToEnd(FoldThenWord(), FoldInput(n0, w0, ws, ins, m, last), [w0] + ws);
  }

  /** A parser that consumes the whole input parses it. */
  lemma ParseToEnd<T>(p: Parser<T>, s: string, v: T)
    requires p(s, 0) == Ok(v, |s|)
    ensures Parse(p, s) == Ok(v, |s|)
  {
  }

  lemma FoldThenWordReads(n0: nat, w0: string, ws: seq<string>, ins: seq<nat>, m: nat, last: string)
    requires FoldShape(n0, w0, ws, ins, m, last)
    ensures FoldThenWord()(FoldInput(n0, w0, ws, ins, m, last), 0)
            == Ok([w0] + ws, |FoldInput(n0, w0, ws, ins, m, last)|)
  {
    Lexer.DefaultSpaceSound();
    FoldReads(n0, w0, ws, ins, m, last);
    FoldThenTail(LineFold(Lexer.Space(), FoldWords), n0, w0, ws, ins, m, last);
    assert FoldThenWord() == Skip(LineFold(Lexer.Space(), FoldWords), Word());
  }

  /** Whatever parser reads the fold, the word after it ends the input. */
  lemma FoldThenTail(fold: Parser<seq<string>>, n0: nat, w0: string, ws: seq<string>, ins: seq<nat>, m: nat, last: string)
    requires FoldShape(n0, w0, ws, ins, m, last)
    requires fold(FoldInput(n0, w0, ws, ins, m, last), 0) == Ok([w0] + ws, |Indent(n0) + w0 + Folded(ws, ins)| + 1 + m)
    ensures Skip(fold, Word())(FoldInput(n0, w0, ws, ins, m, last), 0)
            == Ok([w0] + ws, |FoldInput(n0, w0, ws, ins, m, last)|)
  {
    FoldTail(n0, w0, ws, ins, m, last);
  }

  /** The word after the fold ends the input. */
  lemma FoldTail(n0: nat, w0: string, ws: seq<string>, ins: seq<nat>, m: nat, last: string)
    requires FoldShape(n0, w0, ws, ins, m, last)
    ensures Word()(FoldInput(n0, w0, ws, ins, m, last), |Indent(n0) + w0 + Folded(ws, ins)| + 1 + m)
            == Ok(last, |FoldInput(n0, w0, ws, ins, m, last)|)
  {
    TailReads(Indent(n0) + w0 + Folded(ws, ins), m, last);
  }

  /** The fold itself, up to and including the white space after it. */
  lemma FoldReads(n0: nat, w0: string, ws: seq<string>, ins: seq<nat>, m: nat, last: string)
    requires FoldShape(n0, w0, ws, ins, m, last)
    ensures Sound(Lexer.Space())
    ensures LineFold(Lexer.Space(), FoldWords)(FoldInput(n0, w0, ws, ins, m, last), 0)
            == Ok([w0] + ws, |Indent(n0) + w0 + Folded(ws, ins)| + 1 + m)
  {
    Lexer.DefaultSpaceSound();
    var s := FoldInput(n0, w0, ws, ins, m, last);
    FoldStart(n0, w0, ws, ins, m, last);
    FoldItemsRead(n0, w0, ws, ins, m, last);
    TailReads(Indent(n0) + w0 + Folded(ws, ins), m, last);
    Layout.LineFoldAnchors(Lexer.Space(), FoldWords, s, 0);
  }

  /** The fold starts after the first line's indentation, in its column. */
  lemma FoldStart(n0: nat, w0: string, ws: seq<string>, ins: seq<nat>, m: nat, last: string)
    requires FoldShape(n0, w0, ws, ins, m, last)
    ensures var s := FoldInput(n0, w0, ws, ins, m, last);
            Lexer.Space()(s, 0) == Ok("", n0) && Column(s, n0) == n0
  {
    var rest := w0 + Folded(ws, ins) + Tail(m, last);
    Regroup4(Indent(n0), w0, Folded(ws, ins), Tail(m, last));
    assert rest[0] == w0[0];
    LeadingIndent(n0, rest);
  }

  lemma Regroup4<T>(a: seq<T>, b: seq<T>, c: seq<T>, d: seq<T>)
    ensures a + b + c + d == a + (b + c + d)
  {
  }

  /** The callback's parser, started after the leading indentation. */
  lemma FoldItemsRead(n0: nat, w0: string, ws: seq<string>, ins: seq<nat>, m: nat, last: string)
    requires FoldShape(n0, w0, ws, ins, m, last)
    ensures FoldWords(FoldSpace((Lexer.DefaultSpaceSound(); Lexer.Space()), n0))(FoldInput(n0, w0, ws, ins, m, last), n0)
            == Ok([w0] + ws, |Indent(n0) + w0 + Folded(ws, ins)|)
  {
    FoldLexemeAdvancing(n0);
    FoldLexemeSteps(n0);
    FoldFrom(FoldLexeme(n0), n0, Indent(n0), w0, ws, ins, m, last);
  }

  /** `space()` at the start skips the indentation, which ends in its own
      width's column. */
  lemma LeadingIndent(n: nat, rest: string)
    requires |rest| > 0 && IsWordChar(rest[0])
    ensures Lexer.Space()(Indent(n) + rest, 0) == Ok("", n)
    ensures Column(Indent(n) + rest, n) == n
  {
    var s := Indent(n) + rest;
    assert forall k :: 0 <= k < n ==> s[k] == ' ';
    assert s[n] == rest[0];
    Lexer.SpaceDefault(Char.Space(), s, 0);
    SpanThrough(s, 0, n, Char.IsSpace);
    ColumnThrough(s, 0, n);
  }

  /** After the fold, `space()` crosses the line break and the indentation,
      and the word on that line runs to the end of the input. */
  lemma TailReads(body: string, m: nat, last: string)
    requires IsWord(last)
    ensures Lexer.Space()(body + Tail(m, last), |body|) == Ok("", |body| + 1 + m)
    ensures Word()(body + Tail(m, last), |body| + 1 + m) == Ok(last, |body + Tail(m, last)|)
  {
    TailChars(body, m, last);
    TailRun(body + Tail(m, last), |body|, m, last);
  }

  /** The characters of the last line: a line feed, `m` spaces, then `last`
      up to the end of the input. */
  lemma TailChars(body: string, m: nat, last: string)
    ensures var s := body + Tail(m, last);
            var k := |body| + 1 + m;
            && k + |last| == |s| && s[|body|] == '\n'
            && (forall x :: |body| < x < k ==> s[x] == ' ')
            && s[k..] == last
  {
    var s := body + Tail(m, last);
    assert s[|body| + 1 + m..] == last;
  }

  lemma TailRun(s: string, j: nat, m: nat, last: string)
    requires IsWord(last) && j + 1 + m + |last| == |s| && s[j] == '\n'
    requires forall x :: j < x < j + 1 + m ==> s[x] == ' '
    requires s[j + 1 + m..] == last
    ensures Lexer.Space()(s, j) == Ok("", j + 1 + m)
    ensures Word()(s, j + 1 + m) == Ok(last, |s|)
  {
    var k := j + 1 + m;
    assert forall x :: k <= x < |s| ==> s[x] == last[x - k];
    Lexer.SpaceDefault(Char.Space(), s, j);
    SpanThrough(s, j, k, Char.IsSpace);
    SpanThrough(s, k, |s|, IsWordChar);
    assert s[k..|s|] == last;
  }


  /** The lexeme the callback repeats, over the fold's consumer for start
      column `n0`. */
  function FoldLexeme(n0: nat): Parser<string> {
    Lexer.DefaultSpaceSound();
    Lexer.Lexeme(Word(), Clamp(Map(FoldSpace(Lexer.Space(), n0), TriedText)))
  }

  lemma FoldLexemeAdvancing(n0: nat)
    ensures Advancing(FoldLexeme(n0))
  {
    RegexSound(IsWordChar, true);
    Lexer.DefaultSpaceSound();
    ClampSound(Map(FoldSpace(Lexer.Space(), n0), TriedText));
    Lexer.LexemeSound(Word(), Clamp(Map(FoldSpace(Lexer.Space(), n0), TriedText)));
  }

  /** How the fold's lexeme behaves (`FoldLexemeSteps`): it reads a word
      and then crosses the line break after it exactly when the next line is
      indented past `n0`; it fails at a line break. */
  ghost predicate FoldSteps(p: Parser<string>, n0: nat) {
    && (forall t: string, w: string, ind: nat, rest: string :: FoldStepAt(p, n0, t, w, ind, rest))
    && (forall s: string, j: nat :: FoldFailsAt(p, s, j))
  }

  ghost predicate FoldStepAt(p: Parser<string>, n0: nat, t: string, w: string, ind: nat, rest: string) {
    IsWord(w) && |rest| > 0 && IsWordChar(rest[0]) ==>
      p(t + w + Break(ind) + rest, |t|) == Ok(w, if ind > n0 then |t| + |w| + 1 + ind else |t| + |w|)
  }

  ghost predicate FoldFailsAt(p: Parser<string>, s: string, j: nat) {
    j < |s| && s[j] == '\n' ==> p(s, j).Fail?
  }

  /** The fold's lexemes read the word at `t`'s end and each continuation
      line's word, and stop at the line break before the tail. */
  lemma {:induction false} FoldFrom(p: Parser<string>, n0: nat, t: string, w: string, ws: seq<string>, ins: seq<nat>,
                                    m: nat, last: string)
    requires FoldShape(n0, w, ws, ins, m, last)
    requires Advancing(p) && FoldSteps(p, n0)
    ensures ManyFrom(p, t + w + Folded(ws, ins) + Tail(m, last), |t|)
            == Ok([w] + ws, |t + w + Folded(ws, ins)|)
    decreases |ws|
  {
    if ws == [] {
      assert t + w + Folded(ws, ins) == t + w;
      FoldLastLine(p, n0, t, w, m, last);
      assert [w] + ws == [w];
    } else {
      var f := Folded(ws[1..], ins[1..]);
      var tail := Tail(m, last);
      var t' := t + w + Break(ins[0]);
      Regroup(t + w, Break(ins[0]), ws[0], f, tail);
      assert (ws[0] + f + tail)[0] == ws[0][0];
      assert FoldStepAt(p, n0, t, w, ins[0], ws[0] + f + tail);
      assert FoldShape(n0, ws[0], ws[1..], ins[1..], m, last);
      FoldFrom(p, n0, t', ws[0], ws[1..], ins[1..], m, last);
      assert [ws[0]] + ws[1..] == ws;
    }
  }

  /** On the last line of the fold, the lexeme reads the word and stops at
      the line break, where the next lexeme fails. */
  lemma FoldLastLine(p: Parser<string>, n0: nat, t: string, w: string, m: nat, last: string)
    requires IsWord(w) && IsWord(last) && m <= n0
    requires Advancing(p) && FoldSteps(p, n0)
    ensures ManyFrom(p, t + w + Tail(m, last), |t|) == Ok([w], |t + w|)
  {
    var s := t + w + Tail(m, last);
    var j := |t| + |w|;
    assert s == t + w + Break(m) + last;
    assert FoldStepAt(p, n0, t, w, m, last);
    assert s[j] == '\n';
    assert FoldFailsAt(p, s, j);
    assert ManyFrom(p, s, j) == Ok([], j);
    assert p(s, |t|) == Ok(w, j);
    assert [w] + [] == [w];
  }

  /** The groupings of five pieces that the fold's proof moves between. */
  lemma Regroup<T>(a: seq<T>, b: seq<T>, c: seq<T>, d: seq<T>, e: seq<T>)
    ensures a + (b + c + d) + e == a + b + (c + d + e)
    ensures a + (b + c + d) + e == a + b + c + d + e
  {
  }

  lemma FoldLexemeSteps(n0: nat)
    ensures FoldSteps(FoldLexeme(n0), n0)
  {
    forall t: string, w: string, ind: nat, rest: string
      ensures FoldStepAt(FoldLexeme(n0), n0, t, w, ind, rest)
    {
      if IsWord(w) && |rest| > 0 && IsWordChar(rest[0]) {
        FoldStep(n0, t, w, ind, rest);
      }
    }
    forall s: string, j: nat
      ensures FoldFailsAt(FoldLexeme(n0), s, j)
    {
      if j < |s| && s[j] == '\n' {
        assert !IsWordChar(s[j]);
      }
    }
  }

  /** One lexeme of the fold: the word `w`, then the fold's consumer, which
      crosses the line break and the indentation `ind` only when `ind` is past
      the start column `n0`. */
  lemma FoldStep(n0: nat, t: string, w: string, ind: nat, rest: string)
    requires IsWord(w) && |rest| > 0 && IsWordChar(rest[0])
    ensures FoldLexeme(n0)(t + w + Break(ind) + rest, |t|)
            == Ok(w, if ind > n0 then |t| + |w| + 1 + ind else |t| + |w|)
  {
    FoldWordAt(t, w, ind, rest);
    GapChars(t, w, ind, rest);
    FoldLexemeAt(n0, t + w + Break(ind) + rest, |t|, w, ind);
  }

  /** One folded word: the word, then the gap the fold's consumer crosses
      when the next line is indented past `n0`. */
  lemma FoldLexemeAt(n0: nat, s: string, i: nat, w: string, ind: nat)
    requires Word()(s, i) == Ok(w, i + |w|)
    requires i + |w| + 1 + ind < |s| && s[i + |w|] == '\n' && IsWordChar(s[i + |w| + 1 + ind])
    requires forall x :: i + |w| < x <= i + |w| + ind ==> s[x] == ' '
    ensures FoldLexeme(n0)(s, i) == Ok(w, if ind > n0 then i + |w| + 1 + ind else i + |w|)
  {
    var j := i + |w|;
    GapRun(n0, s, j, ind);
    if ind > n0 {
      LexemeThrough(Word(), FoldSpace(Lexer.Space(), n0), s, i, w, j, Got(""), j + 1 + ind);
    } else {
      LexemeThrough(Word(), FoldSpace(Lexer.Space(), n0), s, i, w, j, Empty, j);
    }
  }


  /** A lexeme over a clamped consumer returns the token's value and ends
      where the consumer ends. */
  lemma LexemeThrough(p: Parser<string>, fs: Parser<Tried<string>>, s: string, i: nat, v: string, j: nat, g: Tried<string>, k: nat)
    requires p(s, i) == Ok(v, j) && fs(s, j) == Ok(g, k) && j <= k <= |s|
    ensures Lexer.Lexeme(p, Clamp(Map(fs, TriedText)))(s, i) == Ok(v, k)
  {
    Lexer.LexemeValue(p, Clamp(Map(fs, TriedText)), s, i);
  }


  lemma FoldWordAt(t: string, w: string, ind: nat, rest: string)
    requires IsWord(w)
    ensures Word()(t + w + Break(ind) + rest, |t|) == Ok(w, |t| + |w|)
  {
    var s := t + w + Break(ind) + rest;
    var j := |t| + |w|;
    assert forall x :: |t| <= x < j ==> s[x] == w[x - |t|];
    assert s[j] == '\n';
    SpanThrough(s, |t|, j, IsWordChar);
    assert s[|t|..j] == w;
  }

  /** The characters around the gap between two folded words: a line feed
      after the word, `ind` spaces, then the next word. */
  lemma GapChars(t: string, w: string, ind: nat, rest: string)
    requires |rest| > 0
    ensures var s := t + w + Break(ind) + rest;
            var j := |t| + |w|;
            && j + 1 + ind < |s| && s[j] == '\n' && s[j + 1 + ind] == rest[0]
            && forall x :: j < x <= j + ind ==> s[x] == ' '
  {
  }

  /** The fold's white-space consumer after a word crosses the line break and
      the indentation when the next line is indented past the fold's start;
      otherwise it consumes nothing. */
  lemma GapRun(n0: nat, s: string, j: nat, ind: nat)
    requires j + 1 + ind < |s| && s[j] == '\n' && IsWordChar(s[j + 1 + ind])
    requires forall x :: j < x <= j + ind ==> s[x] == ' '
    ensures Sound(Lexer.Space())
    ensures FoldSpace(Lexer.Space(), n0)(s, j) == if ind > n0 then Ok(Got(""), j + 1 + ind) else Ok(Empty, j)
  {
    Lexer.DefaultSpaceSound();
    Lexer.SpaceDefault(Char.Space(), s, j);
    SpanThrough(s, j, j + 1 + ind, Char.IsSpace);
    ColumnThrough(s, j + 1, j + 1 + ind);
    Layout.FoldSpaceCrosses(Lexer.Space(), n0, s, j);
  }




}
