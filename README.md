# megaparsy layout combinators in Dafny

A model of the indentation-sensitive lexer layer of megaparsy. megaparsy ports
Haskell Megaparsec's `Text.Megaparsec.Char.Lexer` to Python on top of the parsy
combinator library. The model covers:

- `indent_guard`, `non_indented`, `_indented_items`, the three block strategies
  `IndentNone` / `IndentMany` / `IndentSome`, `indent_block`, `line_fold` and
  `skip_line_comment` (megaparsy/char/lexer.py);
- `try_` and `from_maybe` (megaparsy/utils.py);
- the recognisers `newline`, `crlf`, `eol`, `tab`, `space` and `space1`
  (megaparsy/char/__init__.py);
- the white-space consumer `space` and the wrappers `lexeme` and `symbol`
  (megaparsy/lexer.py; megaparsy/char/lexer.py repeats them with the same
  bodies, and one Dafny definition stands for both copies).

A parser is a pure function from the input text and a cursor to
`Ok(value, next)` or `Fail`. parsy alternatives always backtrack, so a failure
carries no position. `Column(s, i)` is what `parsy.line_info` reports: the
number of characters since the last line feed, where a tab counts as one
column.

Modules, one per file:

| file | module | what it holds |
|---|---|---|
| Parsy.dfy | `Parsy` | the parsy primitives the lexer is built from (`string`, `regex`, `eof`, alternation, `>>`, `<<`, `optional`, `map`, `result`, `+`, `many`, `parse`), `Column`, and the soundness lemmas |
| Utils.dfy | `Utils` | `try_` (`Try`, whose value is `Got(v)` or `Empty`, where `Empty` is Python's `''`) and `from_maybe` |
| Char.dfy | `Char` | the recognisers of `megaparsy.char` |
| Lexer.dfy | `Lexer` | `space`, `lexeme`, `symbol` |
| CharLexer.dfy | `CharLexer` | `skip_line_comment`, `indent_guard`, `non_indented`, `_indented_items`, `IndentOpt`, `indent_block`, `line_fold` |
| Layout.dfy | `Layout` | what those combinators guarantee for every input, white-space consumer and item parser |
| BlockTable.dfy | `BlockTable` | the three-level grammar of `test_indent_block` and its decision table, proved for every input of the generated shape |
| BlockInput.dfy | `BlockInput` | the inputs that test generates, shown to have that shape, with the test's `get_col` columns |
| Scenarios.dfy | `Scenarios` | the example tests of tests/test_lexer.py, tests/test_utils.py and tests/char/test_lexer.py, each stated for every input of the test's shape |

The model follows the code as written, quirks included:

- `space` makes a single fixed-order pass (white space, then one line comment,
  then one block comment). It is not Megaparsec's repeated skip
  (`Lexer.SpaceOnePass`, `Scenarios.SpaceStopsAfterOneComment`).
- `try_` never fails. So in the `IndentMany` branch, `maybe_lvl` is never
  `None`. A failed child-line lookahead yields `''` with the cursor rolled
  back. With no pinned column, `''` then matches no column
  (`Layout.ManyLookahead`, `Layout.ItemsWithoutLevel`).
- In the `IndentSome` branch, the two `parsy.fail(...)` values are built but
  never returned. A pinned column that the first child line does not match
  therefore makes the block succeed with Python's `None`
  (`Layout.IndentSomePinnedMismatch`). For example, a head at column 0 that
  pins column 5, over a child line at column 2, gives `Ok(None, …)` with the
  cursor after that line's indentation. The block's value is modelled as `Option<A>`. The
  Haskell original quoted in the docstring (megaparsy/char/lexer.py:232-237,
  the `incorrectIndent EQ lvl pos` case) fails there; the model keeps the
  code's behaviour.
- The fold's white-space consumer `sc_` consumes nothing at all when its guard
  fails (`Layout.FoldSpaceCrosses`).
- A failing `indent_guard` is a plain parsy failure, which carries no cursor:
  the caller resumes from where the guard started, before the white space it
  skipped.

## Model

| member | source | states |
|---|---|---|
| Parsy.Column | megaparsy/char/lexer.py:108 | the column `line_info` reports is at most the cursor |
| Parsy.ColumnCountsLine | megaparsy/char/lexer.py:108 | the column is the distance back to the last line feed (or to the input's start), with no line feed in between |
| Parsy.ColumnThrough | tests/char/test_lexer.py:122-127 | after a line feed, a stretch without line feeds ends in the column of its length, so a tab counts as one column |
| Parsy.Span | megaparsy/char/__init__.py:12 | the run a greedy `regex` of one character class consumes stays inside the input |
| Parsy.SpanMaximal | megaparsy/char/__init__.py:12 | that run is of the class throughout and cannot be extended |
| Parsy.SpanThrough | megaparsy/char/__init__.py:12 | a stretch of the class that cannot be extended is exactly the run found |
| Parsy.ManyFrom | tests/test_lexer.py:52 | `many` always succeeds, stays inside the input, and returns `[]` exactly when the first attempt fails |
| Parsy.ManyCollects | tests/test_lexer.py:66-69 | `many` returns the values of successive successes, each run where the previous one stopped, and ends where the parser first fails |
| Utils.Try | megaparsy/utils.py:10 | defines `try_(p)` as `p` with `''` as the fallback; its guarantees are `Utils.TryOutcome` and `Utils.TrySound` |
| Utils.FromMaybe | megaparsy/utils.py:30 | `from_maybe(default, maybe)` is `maybe` whenever it is not `None`, and `default` otherwise |
| Utils.TryOutcome | megaparsy/utils.py:18 | `try_(p)` never fails; it is `p`'s value and end when `p` succeeds, and `''` at the original cursor when `p` fails |
| Utils.TrySound | megaparsy/utils.py:18 | `try_` keeps a parser inside the input |
| Utils.TryLetLexical | tests/test_utils.py:6-10 | `try_(string('let'))` on "lexical" yields `''` without consuming, and `string('lexical')` then reads all 7 characters |
| Char.Whitespace | megaparsy/char/__init__.py:12 | defines `parsy.whitespace`, the regex `\s+` over the ASCII characters of `\s` |
| Char.Newline | megaparsy/char/__init__.py:4 | defines `newline`; `Char.NewlineCrlf` states what it accepts |
| Char.Crlf | megaparsy/char/__init__.py:6 | defines `crlf`; `Char.NewlineCrlf` states what it accepts |
| Char.Eol | megaparsy/char/__init__.py:8 | defines `eol` as `newline`, else `crlf`; `Char.EolAccepts` states what it accepts |
| Char.Tab | megaparsy/char/__init__.py:10 | defines `tab`; `Char.EolExamples` checks it on the test's input |
| Char.Space | megaparsy/char/__init__.py:12 | defines `space`; `Char.SpaceSkipsRun` states what it consumes |
| Char.Space1 | megaparsy/char/__init__.py:14 | defines `space1`; `Char.Space1SkipsRun` states when it succeeds and what it consumes |
| Char.NewlineCrlf | megaparsy/char/__init__.py:4-6 | `newline` accepts exactly a line feed and `crlf` exactly a carriage return plus line feed, each returning the text it matched |
| Char.EolAccepts | megaparsy/char/__init__.py:8 | `eol` succeeds iff the input has a line feed or a carriage return plus line feed at the cursor, and returns that sequence |
| Char.EolExamples | tests/char/test_char.py:7-48 | `eol` returns "\n" and "\r\n", fails on "\r", "\r ", "x" and "", and `tab` returns "\t" |
| Char.EolSound | megaparsy/char/__init__.py:8 | every success of `eol` consumes input |
| Char.SpaceSkipsRun | megaparsy/char/__init__.py:12 | `space` never fails; it skips the longest run of white space, line breaks and tabs included, and returns `''` |
| Char.Space1SkipsRun | megaparsy/char/__init__.py:14 | `space1` succeeds iff the cursor is at white space, and then consumes the same run |
| Char.SpaceSound | megaparsy/char/__init__.py:12-14 | `space` and `space1` stay inside the input |
| Lexer.Space | megaparsy/lexer.py:6-35 | defines `space` with its three defaults; `Lexer.SpaceOnePass` and `Lexer.SpaceDefault` state what it does |
| Lexer.Lexeme | megaparsy/lexer.py:37-48 | defines `lexeme(p, sp)` as `p << sp`; `Lexer.LexemeValue` states its outcome |
| Lexer.Symbol | megaparsy/lexer.py:51-52 | defines `symbol(w, sp)` as the lexeme of `string(w)`; `Lexer.SymbolMatches` states its outcome |
| Lexer.SpaceOnePass | megaparsy/lexer.py:32-35 | `space` never fails and returns `''`; it runs white space, line comment and block comment once each, in that order, each from where the previous stopped, and skips any part that fails |
| Lexer.SpaceDefault | megaparsy/lexer.py:6-10 | with the default failing comment parsers, `space(p)` is an optional `p`, and `space()` skips the longest white-space run |
| Lexer.SpaceStopsAtText | megaparsy/lexer.py:32-35 | on white space followed by other text, `space()` stops exactly at the first character that is not white space |
| Lexer.SpaceSound | megaparsy/lexer.py:32-35 | `space` over sound parts stays inside the input |
| Lexer.DefaultSpaceSound | megaparsy/lexer.py:6-10 | `space()` stays inside the input |
| Lexer.LexemeValue | megaparsy/lexer.py:48 | `lexeme(p, sp)` succeeds iff `p` and then `sp` do, and returns `p`'s value with the cursor after `sp` |
| Lexer.SymbolMatches | megaparsy/lexer.py:51-52 | `symbol(w, sp)` succeeds iff `w` is at the cursor and `sp` succeeds after it, and returns `w` |
| Lexer.LexemeSound | megaparsy/lexer.py:48 | a lexeme of a sound (advancing) token is sound (advancing) |
| CharLexer.SkipLineComment | megaparsy/char/lexer.py:67-76 | defines `skip_line_comment(prefix)`; `Layout.SkipLineCommentStops` states its outcome |
| Layout.SkipLineCommentStops | megaparsy/char/lexer.py:74-76 | `skip_line_comment(prefix)` succeeds iff the prefix is at the cursor; it returns `''` and stops at the first line feed after the prefix, which it does not consume, or at the end of the input |
| CharLexer.IndentGuard | megaparsy/char/lexer.py:82-120 | defines `indent_guard`, the column taken after the white space; `Layout.IndentGuardIff` states its outcome |
| CharLexer.NonIndented | megaparsy/char/lexer.py:123-135 | defines `non_indented` as `indent_guard(sc, eq, 0) >> p`; `Layout.NonIndentedIff` states its outcome |
| Layout.IndentGuardIff | megaparsy/char/lexer.py:101-120 | `indent_guard` succeeds iff the column after the white space satisfies the relation, and then returns exactly that column |
| Layout.NonIndentedIff | megaparsy/char/lexer.py:135 | `non_indented` is the content's result when the content starts in column 0 after the white space, and fails at any positive indentation |
| CharLexer.IndentedItems | megaparsy/char/lexer.py:138-181 | the collector stays inside the input; it stops at the end of the input or at a line at or left of the reference; it returns items only for a column past the reference |
| Layout.ItemsStop | megaparsy/char/lexer.py:159-166 | at the end of the input, or at a line at or left of the reference, the collector returns `[]` after the white space |
| Layout.ItemsMisaligned | megaparsy/char/lexer.py:171-177 | a line past the reference but not in the block's column fails the collection |
| Layout.ItemsStep | megaparsy/char/lexer.py:167-170 | a line in the block's column holds an item; the collector fails iff the item or the rest fails, and otherwise prepends the item to the rest |
| Layout.ItemsWithoutLevel | megaparsy/char/lexer.py:264-270 | with the `''` level, the collector succeeds (with `[]`) iff the next line is at or left of the reference or the input ends |
| Layout.ItemsCollect | megaparsy/char/lexer.py:159-177 | every result of the collector is a layout `Collects` accepts: each item was parsed from a line in exactly the block's column, past the reference |
| Layout.CollectsItems | megaparsy/char/lexer.py:159-177 | conversely, the collector returns exactly the items and end of any layout `Collects` accepts |
| Layout.CollectsAligned | megaparsy/char/lexer.py:165-170 | every item of an accepted layout starts in the block's column, which lies past the reference |
| CharLexer.ChildLine | megaparsy/char/lexer.py:263-264 | defines the child-line parser `eol >> indent_guard(sc, gt, ref)` of both block strategies; `Layout.ChildLineIff` states its outcome |
| Layout.ChildLineIff | megaparsy/char/lexer.py:263-264 | `eol >> indent_guard(sc, gt, ref)` succeeds iff a line break is followed by white space that ends in a column past the reference; it returns that column |
| Layout.ManyLookahead | megaparsy/char/lexer.py:264 | the `IndentMany` lookahead never fails and is never `None`: it gives the child's column and position, or `''` with the cursor rolled back |
| CharLexer.IndentBlock | megaparsy/char/lexer.py:241-304 | defines `indent_block`: white space, the head's column as the reference, the head, then the strategy it returns; the `Layout` lemmas below state each outcome |
| CharLexer.ManyBlock | megaparsy/char/lexer.py:259-273 | the `IndentMany` branch stays inside the input |
| CharLexer.SomeBlock | megaparsy/char/lexer.py:275-299 | the `IndentSome` branch consumes at least the line break when it succeeds, and stays inside the input |
| Layout.BlockNeedsHead | megaparsy/char/lexer.py:251-253 | a block whose white space or head fails, fails |
| Layout.IndentNoneValue | megaparsy/char/lexer.py:255-257 | `IndentNone(v)` runs the white-space consumer and returns `v` unchanged |
| Layout.IndentManyAtEnd | megaparsy/char/lexer.py:265-273 | `IndentMany` at the end of the input gives `f([])` after the white space |
| Layout.IndentManyCollects | megaparsy/char/lexer.py:266-271 | otherwise `IndentMany` collects at the pinned column if any, else at the lookahead's column, and succeeds iff the collection does, with `f` of the items |
| Layout.IndentManyNoChild | megaparsy/char/lexer.py:259-273 | `IndentMany` without a pin or a child line gives `f([])` when what follows is at or left of the head, and fails when it is further right |
| Layout.IndentSomeNeedsChild | megaparsy/char/lexer.py:280 | `IndentSome` without a line break and a line indented past the head fails |
| Layout.IndentSomeCollects | megaparsy/char/lexer.py:280-292 | `IndentSome` whose child line is in the required column parses the first child there and collects the rest in that column; its value is `f` of a non-empty list |
| Layout.IndentSomePinnedMismatch | megaparsy/char/lexer.py:289-299 | as written, a pinned column the child line misses gives a `None` success, with the cursor after the line break and the indentation |
| Layout.IndentBlockAdvances | megaparsy/char/lexer.py:241-304 | a block stays inside the input, and it consumes input whenever its head does, so a block can serve as a child parser |
| CharLexer.LineFold | megaparsy/char/lexer.py:307-340 | defines `line_fold`; `Layout.LineFoldAnchors` states its outcome |
| CharLexer.FoldSpace | megaparsy/char/lexer.py:335-337 | defines the fold's consumer `sc_`; `Layout.FoldSpaceCrosses` states what it consumes |
| Layout.FoldSpaceCrosses | megaparsy/char/lexer.py:335-337 | the fold's consumer crosses white space only when it lands in a column past the fold's start column; otherwise it consumes nothing and still succeeds |
| Layout.FoldSpaceSound | megaparsy/char/lexer.py:335-337 | the fold's consumer stays inside the input |
| Layout.LineFoldAnchors | megaparsy/char/lexer.py:331-338 | `line_fold` runs the callback's parser from the first token, with the consumer anchored at that token's column, then the outer consumer; it fails iff either fails |
| BlockTable.ScAt | tests/char/test_lexer.py:130 | `sc` skips the longest run of spaces and tabs and never fails |
| BlockTable.ScnAt | tests/char/test_lexer.py:132 | `scn` skips the longest run of white space and never fails |
| BlockTable.LevelCAtWord | tests/char/test_lexer.py:199-202 | a `ccc` block on a `ccc` word returns `'ccc'` and ends after the white space that follows |
| BlockTable.LevelCAtOther | tests/char/test_lexer.py:199-202 | a `ccc` block fails on a `bbb` word |
| BlockTable.SomeBlockFirst | tests/char/test_lexer.py:203-206 | a `bbb` block whose child line is indented past it parses the first `ccc` there and then collects in that column |
| BlockTable.SomeBlockOneChild | tests/char/test_lexer.py:203-206 | a `bbb` block with one child ends at a following line at or left of it, and fails on one further right |
| BlockTable.SomeBlockNoChild | tests/char/test_lexer.py:203-206 | a `bbb` block whose next line is not indented past it fails |
| BlockTable.BlockBAt | tests/char/test_lexer.py:203-206 | on a `bbb` line and its `ccc` line, the `bbb` block gives `('bbb', ['ccc'])` or fails, exactly as the columns decide |
| BlockTable.TableCases | tests/char/test_lexer.py:215-247 | the test's chain of column conditions matches what the two `bbb` children make of the input |
| BlockTable.TableGeneric | tests/char/test_lexer.py:207-247 | for any white-space consumer, head and child parsers that behave as the grammar's do, `lvla << eof` fails exactly when the decision table says so, and otherwise returns the expected tree with the whole input consumed |
| BlockTable.DecisionTable | tests/char/test_lexer.py:192-247 | the same for the concrete grammar `lvla`, `lvlb`, `lvlc` |
| BlockInput.GetColIsIndent | tests/char/test_lexer.py:122-127 | `get_col` of a generated line is the length of its indentation |
| BlockInput.ColsAreIndents | tests/char/test_lexer.py:197 | the test's columns are the indentations of the five lines |
| BlockInput.JoinLaid | tests/char/test_lexer.py:212 | `''.join(lines)` lays the lines end to end, each at its offset |
| BlockInput.LaidShape | tests/char/test_lexer.py:134-189 | five generated lines laid end to end have the shape of the table, with the test's columns |
| BlockInput.FuzzedBlock | tests/char/test_lexer.py:192-247 | for every generated input and every pinned level, the parse fails exactly when the test expects a `ParseError`, and otherwise returns `('aaa', [('bbb', ['ccc']), ('bbb', ['ccc'])])` |
| Scenarios.TryThenLexical | tests/test_utils.py:6-10 | `try_(string('let')) + string('lexical')` parses "lexical" to "lexical" |
| Scenarios.SpaceConsumesAll | tests/test_lexer.py:8-19 | on any white-space-only input, `space().parse` returns `''` |
| Scenarios.SpaceExamples | tests/test_lexer.py:8-19 | the same on the five inputs of `test_space` |
| Scenarios.SpaceLeavesText | tests/test_lexer.py:22-33 | after any white space, `space() + regex('.*')` returns "x y" |
| Scenarios.SpaceSkipsComment | tests/test_lexer.py:36-48 | `space(p_line_comment=skip_line_comment('//'))` consumes any white space and then the comment |
| Scenarios.SpaceStopsAfterOneComment | megaparsy/lexer.py:32-35 | `space` reads one comment and does not come back to a second comment line |
| Scenarios.LexemesRead | tests/test_lexer.py:51-62 | `lexeme(regex(r'\w+')).many()` returns the words, in order, of any input made of words separated by white space |
| Scenarios.SymbolExample | tests/test_lexer.py:65-69 | `symbol('foo').many()` parses "foo foo\nfoo " to three `'foo'` |
| Scenarios.SkipLineCommentToEnd | tests/char/test_lexer.py:22-27 | `skip_line_comment('//')` parses a comment with no line feed after it to `''` |
| Scenarios.SkipLineCommentKeepsNewline | tests/char/test_lexer.py:29-33 | the line feed after a comment is left for `string('\n')` |
| Scenarios.IndentGuardExamples | tests/char/test_lexer.py:36-49 | `indent_guard(space(), gt, 4)` fails on two and on four spaces and returns 6 on six |
| Scenarios.NonIndentedExamples | tests/char/test_lexer.py:52-69 | `non_indented(space(), symbol('one'))` reads "one" at column 0 and fails on an indented line |
| Scenarios.ClampKeeps | tests/char/test_lexer.py:90-95 | the clamp around the callback's consumer changes nothing on a sound consumer |
| Scenarios.LineFoldCollects | tests/char/test_lexer.py:72-104 | `line_fold(space(), callback) << regex(r'\w+')` returns the first word and every continuation word indented past it, then reads the word on the first line at or left of it |
| Scenarios.FoldStep | tests/char/test_lexer.py:90-95 | one lexeme of the callback reads a word, then crosses the line break and the indentation exactly when the next line is indented past the fold's start column |
| Scenarios.FoldFrom | megaparsy/char/lexer.py:333-338 | the fold's lexemes read each continuation word and stop at the first line not indented past the fold's start, without consuming it |

## Left out

- `debug` (megaparsy/utils.py:36-49): it only logs.
- The text of failure messages and `OPERATOR_MAP` (megaparsy/char/lexer.py:10-14). parsy's furthest-failure bookkeeping is left out too. Every failure is a plain `Fail`.
- The `TypeError` for a head value that is none of the three strategies (megaparsy/char/lexer.py:301-302). The head's value type is the closed `IndentOpt` union, so that case cannot arise.
- A block function `f` that returns a parsy `Parser`, which `parsy.generate` would run. `f` is a pure function `seq<B> -> A`, as in the tests.
- `skip_block_comment`: it is not implemented in the source.
- The unbounded recursion of `_indented_items` and `many` on an item that succeeds without consuming input. The model requires child and `many` parsers to advance (`Advancing`), and the proofs show that the grammars used do.
- Non-ASCII characters of `\s` and `\w` (such as U+0085, U+00A0 and letters outside ASCII). White space is the ASCII part of `\s`: space, tab, line feed, vertical tab, form feed, carriage return and U+001C to U+001F. Word characters are ASCII letters, digits and `_`.
- Python's recursion limit. `_indented_items` nests one `parsy.generate` call per child, so a block with several hundred children raises `RecursionError` in Python; the model has no such bound and collects any number of children.
- megaparsy/control/applicative/combinators.py, examples/indentation_sensitive.py and setup.py are not part of this model.
- Hypothesis's random drawing in `test_indent_block`. `BlockInput.Generated` states what every drawn input looks like, a level of any size included.
- Scenarios.SkipLineCommentToEnd: stated for every comment body without a line feed rather than on the test's literal 55-character string.
- Scenarios.LexemesRead: stated for every input of the test's shape rather than on "one two three\nfour five six ".
- Scenarios.LineFoldCollects: stated for every input of the test's shape (first word at any indentation `n0`, continuation lines indented past `n0`, last line at or left of `n0`, one word per line). Inputs with several words on a continuation line are not covered.
- Scenarios.FoldWords: the callback's consumer is wrapped in `Scenarios.Clamp` so that `many` can take any consumer; `Scenarios.ClampKeeps` shows the wrapper is the identity on the sound consumer `line_fold` hands it.
