/** megaparsy/lexer.py: the general white-space consumer and the lexeme
    wrappers. megaparsy/char/lexer.py declares the same three functions again
    with the same bodies; this module stands for both copies. */
module Lexer {
  import opened Parsy
  import Char

  /** `space(p_space, p_line_comment, p_block_comment)`: a single pass of an
      optional run of white space, then an optional line comment, then an
      optional block comment. The comment parsers default to `parsy.fail`. */
  function Space(pSpace: Parser<string> := Char.Space(),
                 pLineComment: Parser<string> := Failure(),
                 pBlockComment: Parser<string> := Failure()): Parser<string>
  {
    Skip(Skip(Skip(Succeed(""), Optional(pSpace)), Optional(pLineComment)), Optional(pBlockComment))
  }

  /** `lexeme(p_lexeme, p_space)`: the lexeme, then trailing white space. */
  function Lexeme<T>(pLexeme: Parser<T>, pSpace: Parser<string> := Char.Space()): Parser<T> {
    Skip(pLexeme, pSpace)
  }

  /** `symbol(symbol, p_space)`: the literal text as a lexeme. */
  function Symbol(w: string, pSpace: Parser<string> := Char.Space()): Parser<string> {
    Lexeme(Literal(w), pSpace)
  }

  /** Where an optional part leaves the cursor. */
  function After<T>(p: Parser<T>, s: string, i: nat): nat {
    match p(s, i) case Ok(_, j) => j case Fail => i
  }

  /** `space` never fails and always returns ''. It runs each part once, in
      the fixed order white space, line comment, block comment, each from where
      the previous one stopped; a part that fails is skipped. */
  lemma SpaceOnePass(pSpace: Parser<string>, pLineComment: Parser<string>, pBlockComment: Parser<string>, s: string, i: nat)
    ensures var j := After(pSpace, s, i);
            var k := After(pLineComment, s, j);
            Space(pSpace, pLineComment, pBlockComment)(s, i) == Ok("", After(pBlockComment, s, k))
  {
  }

  /** With the default comment parsers, `space` is just an optional run of
      `p_space`; with the default `p_space` it skips the longest run of white
      space (tests/test_lexer.py, `test_space` and `test_space2`). */
  lemma SpaceDefault(pSpace: Parser<string>, s: string, i: nat)
    requires i <= |s|
    ensures Space(pSpace)(s, i) == Ok("", After(pSpace, s, i))
    ensures Space()(s, i) == Ok("", Span(s, i, Char.IsSpace))
  {
    SpaceOnePass(pSpace, Failure(), Failure(), s, i);
    SpaceOnePass(Char.Space(), Failure(), Failure(), s, i);
    Char.SpaceSkipsRun(s, i);
  }

  /** On input made only of white space `space()` consumes everything; before
      other text it stops at the first character that is not white space. */
  lemma SpaceStopsAtText(ws: string, rest: string)
    requires forall k :: 0 <= k < |ws| ==> Char.IsSpace(ws[k])
    requires rest == [] || !Char.IsSpace(rest[0])
    ensures Space()(ws + rest, 0) == Ok("", |ws|)
  {
    SpaceDefault(Char.Space(), ws + rest, 0);
    SpanOverRun(ws, rest, 0);
  }

  /** The maximal run from `i` inside `ws` ends exactly where `ws` does when
      the text after it starts with a character outside the class. */
  lemma {:induction false} SpanOverRun(ws: string, rest: string, i: nat)
    requires i <= |ws|
    requires forall k :: 0 <= k < |ws| ==> Char.IsSpace(ws[k])
    requires rest == [] || !Char.IsSpace(rest[0])
    ensures Span(ws + rest, i, Char.IsSpace) == |ws|
    decreases |ws| - i
  {
    if i < |ws| {
      assert (ws + rest)[i] == ws[i];
      SpanOverRun(ws, rest, i + 1);
    } else if rest != [] {
      assert (ws + rest)[i] == rest[0];
    }
  }

  lemma SpaceSound(pSpace: Parser<string>, pLineComment: Parser<string>, pBlockComment: Parser<string>)
    requires Sound(pSpace) && Sound(pLineComment) && Sound(pBlockComment)
    ensures Sound(Space(pSpace, pLineComment, pBlockComment))
  {
    forall s: string, i: nat | i <= |s|
      ensures i <= Space(pSpace, pLineComment, pBlockComment)(s, i).next <= |s|
    {
      SpaceOnePass(pSpace, pLineComment, pBlockComment, s, i);
    }
  }

  /** `space()` with its defaults never moves backwards nor past the input. */
  lemma DefaultSpaceSound()
    ensures Sound(Space())
  {
    forall s: string, i: nat | i <= |s|
      ensures i <= Space()(s, i).next <= |s|
    {
      SpaceDefault(Char.Space(), s, i);
    }
  }

  /** `lexeme(p, sp)` returns the value of `p` and leaves the cursor after the
      white space `sp` consumed; it fails when either part fails. */
  lemma LexemeValue<T>(p: Parser<T>, pSpace: Parser<string>, s: string, i: nat)
    ensures Lexeme(p, pSpace)(s, i).Ok? <==> p(s, i).Ok? && pSpace(s, p(s, i).next).Ok?
    ensures Lexeme(p, pSpace)(s, i).Ok? ==>
              Lexeme(p, pSpace)(s, i) == Ok(p(s, i).value, pSpace(s, p(s, i).next).next)
  {
  }

  /** `symbol(w, sp)` matches the literal `w`, then `sp`, and returns `w`. */
  lemma SymbolMatches(w: string, pSpace: Parser<string>, s: string, i: nat)
    ensures Symbol(w, pSpace)(s, i).Ok? <==>
              i + |w| <= |s| && s[i..i + |w|] == w && pSpace(s, i + |w|).Ok?
    ensures Symbol(w, pSpace)(s, i).Ok? ==> Symbol(w, pSpace)(s, i) == Ok(w, pSpace(s, i + |w|).next)
  {
  }

  lemma LexemeSound<T>(p: Parser<T>, pSpace: Parser<string>)
    requires Sound(p) && Sound(pSpace)
    ensures Sound(Lexeme(p, pSpace))
    ensures Advancing(p) ==> Advancing(Lexeme(p, pSpace))
  {
    SkipSound(p, pSpace);
  }
}
