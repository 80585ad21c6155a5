/** megaparsy/char/__init__.py: single-character and end-of-line recognisers. */
module Char {
  import opened Parsy

  /** The ASCII characters of Python's `\s` class used by `parsy.whitespace`:
      space, tab, line feed, vertical tab, form feed, carriage return and the
      four separators U+001C to U+001F. */
  predicate IsSpace(c: char) {
    c == ' ' || ('\t' <= c <= '\r') || ('\U{1C}' <= c <= '\U{1F}')
  }

  /** `parsy.whitespace`, the regex `\s+`. */
  function Whitespace(): Parser<string> {
    Regex(IsSpace, true)
  }

  /** `newline = parsy.string('\n')` */
  function Newline(): Parser<string> {
    Literal("\n")
  }

  /** `crlf = parsy.string('\r\n')` */
  function Crlf(): Parser<string> {
    Literal("\r\n")
  }

  /** `eol = newline | crlf` */
  function Eol(): Parser<string> {
    Alt(Newline(), Crlf())
  }

  /** `tab = parsy.string('\t')` */
  function Tab(): Parser<string> {
    Literal("\t")
  }

  /** `space = parsy.whitespace.optional().result('')` */
  function Space(): Parser<string> {
    As(Optional(Whitespace()), "")
  }

  /** `space1 = parsy.whitespace.result('')` */
  function Space1(): Parser<string> {
    As(Whitespace(), "")
  }

  /** `newline` and `crlf` accept exactly their text and return it. */
  lemma NewlineCrlf(s: string, i: nat)
    requires i <= |s|
    ensures Newline()(s, i).Ok? <==> i < |s| && s[i] == '\n'
    ensures Newline()(s, i).Ok? ==> Newline()(s, i) == Ok("\n", i + 1)
    ensures Crlf()(s, i).Ok? <==> i + 1 < |s| && s[i] == '\r' && s[i + 1] == '\n'
    ensures Crlf()(s, i).Ok? ==> Crlf()(s, i) == Ok("\r\n", i + 2)
  {
    if i + 2 <= |s| && s[i] == '\r' && s[i + 1] == '\n' {
      assert s[i..i + 2] == "\r\n";
    }
    if i < |s| && s[i] == '\n' {
      assert s[i..i + 1] == "\n";
    }
  }

  /** `eol` accepts a line feed or a carriage return followed by a line feed,
      returns the sequence it consumed, and fails on anything else. */
  lemma EolAccepts(s: string, i: nat)
    requires i <= |s|
    ensures Eol()(s, i).Ok? <==> i < |s| && (s[i] == '\n' || (s[i] == '\r' && i + 1 < |s| && s[i + 1] == '\n'))
    ensures i < |s| && s[i] == '\n' ==> Eol()(s, i) == Ok("\n", i + 1)
    ensures i < |s| && s[i] == '\r' && Eol()(s, i).Ok? ==> Eol()(s, i) == Ok("\r\n", i + 2)
  {
    NewlineCrlf(s, i);
  }

  /** The accepted and rejected inputs of tests/char/test_char.py. */
  lemma EolExamples()
    ensures Eol()("\n", 0) == Ok("\n", 1)
    ensures Eol()("\r\n", 0) == Ok("\r\n", 2)
    ensures Eol()("\r", 0).Fail? && Eol()("\r ", 0).Fail?
    ensures Eol()("x", 0).Fail? && Eol()("", 0).Fail?
    ensures Tab()("\t", 0) == Ok("\t", 1)
  {
    EolAccepts("\n", 0);
    EolAccepts("\r\n", 0);
    EolAccepts("\r", 0);
    EolAccepts("\r ", 0);
    EolAccepts("x", 0);
    EolAccepts("", 0);
    assert "\t"[0..1] == "\t";
  }

  lemma EolSound()
    ensures Advancing(Eol())
  {
    forall s: string, i: nat | i <= |s| && Eol()(s, i).Ok?
      ensures i < Eol()(s, i).next <= |s|
    {
      EolAccepts(s, i);
    }
  }

  /** `space` never fails: it skips the longest run of whitespace, line breaks
      and tabs included, and returns ''. */
  lemma SpaceSkipsRun(s: string, i: nat)
    requires i <= |s|
    ensures Space()(s, i) == Ok("", Span(s, i, IsSpace))
  {
  }

  /** `space1` consumes the same run, but fails when the cursor is not at a
      whitespace character, at the end of the input in particular. */
  lemma Space1SkipsRun(s: string, i: nat)
    requires i <= |s|
    ensures Space1()(s, i).Ok? <==> i < |s| && IsSpace(s[i])
    ensures Space1()(s, i).Ok? ==> Space1()(s, i) == Ok("", Span(s, i, IsSpace))
  {
  }

  lemma SpaceSound()
    ensures Sound(Space()) && Sound(Space1())
  {
    forall s: string, i: nat | i <= |s|
      ensures Space()(s, i).Ok? ==> i <= Space()(s, i).next <= |s|
      ensures Space1()(s, i).Ok? ==> i <= Space1()(s, i).next <= |s|
    {
      SpaceSkipsRun(s, i);
      Space1SkipsRun(s, i);
    }
  }
}
