/** megaparsy/char/lexer.py: line comments and the indentation-sensitive
    combinators ported from Megaparsec's Text.Megaparsec.Char.Lexer. */
module CharLexer {
  import opened Parsy
  import opened Utils
  import Char
  import Lexer

  predicate NotNewline(c: char) {
    c != '\n'
  }

  /** `skip_line_comment(prefix)`: the prefix, then everything up to but not
      including the next line feed; returns ''. */
  function SkipLineComment(prefix: string): Parser<string> {
    Skip(As(Literal(prefix), ""), Regex(NotNewline, false))
  }

  /** The orderings `indent_guard` is used with: `operator.eq`, `operator.gt`
      and `operator.lt`, applied as `operator(actual, reference_level)`. */
  datatype Relation = Eq | Gt | Lt

  predicate Holds(rel: Relation, actual: nat, reference: nat) {
    match rel
    case Eq => actual == reference
    case Gt => actual > reference
    case Lt => actual < reference
  }

  /** `indent_guard(p_space_consumer, operator, reference_level)`: consume
      white space, then succeed with the current column if it stands in
      relation `rel` to `reference`. The white space is consumed on failure too,
      but a parsy failure discards the cursor, so the caller sees none of it. */
  function IndentGuard(sc: Parser<string>, rel: Relation, reference: nat): Parser<nat>
    requires Sound(sc)
  {
    (s: string, i: nat) =>
      if |s| < i then Fail
      else
        match sc(s, i)
        case Fail => Fail
        case Ok(_, j) =>
          var actual := Column(s, j);
          if Holds(rel, actual, reference) then Ok(actual, j) else Fail
  }

  /** `non_indented(p_space_consumer, p_content)`: the content must start in
      column 0 once the white space is skipped. */
  function NonIndented<T>(sc: Parser<string>, content: Parser<T>): Parser<T>
    requires Sound(sc)
  {
    Then(IndentGuard(sc, Eq, 0), content)
  }

  /** `_indented_items(reference_level, next_level, p_space_consumer,
      p_indented_tokens)`: after the white space, stop at the end of the input
      or at a line at or left of `reference`; parse an item and go on at a line
      in column `level`; fail at any other column. `level` is `Empty` when the
      block found no child line and has no pinned column: it matches no column. */
  function IndentedItems<B>(reference: nat, level: Tried<nat>, sc: Parser<string>, p: Parser<B>,
                            s: string, i: nat): (r: Result<seq<B>>)
    requires Sound(sc) && Advancing(p) && i <= |s|
    ensures r.Ok? ==> i <= r.next <= |s|
    ensures r.Ok? ==> r.next == |s| || Column(s, r.next) <= reference
    ensures r.Ok? && r.value != [] ==> level.Got? && level.value > reference
    decreases |s| - i
  {
    match sc(s, i)
    case Fail => Fail
    case Ok(_, j) =>
      var pos := Column(s, j);
      if j == |s| then Ok([], j)
      else if pos <= reference then Ok([], j)
      else if level == Got(pos) then
        match p(s, j)
        case Fail => Fail
        case Ok(x, k) =>
          match IndentedItems(reference, level, sc, p, s, k)
          case Fail => Fail
          case Ok(xs, n) => Ok([x] + xs, n)
      else Fail
  }

  /** The three strategies a block's head can ask for (`IndentNone`,
      `IndentMany`, `IndentSome`): no children and a plain value; zero or more
      children; one or more children. `indent` pins the children's column;
      `f` turns the children's values into the block's value; `p` parses one
      child. */
  datatype IndentOpt<A, !B> =
    | IndentNone(val: A)
    | IndentMany(indent: Option<nat>, f: seq<B> -> A, p: Parser<B>)
    | IndentSome(indent: Option<nat>, f: seq<B> -> A, p: Parser<B>)

  /** Every child parser a head can hand out consumes input when it succeeds. */
  ghost predicate ItemsAdvance<A, B>(head: Parser<IndentOpt<A, B>>) {
    forall s: string, i: nat ::
      i <= |s| && head(s, i).Ok? && !head(s, i).value.IndentNone? ==> Advancing(head(s, i).value.p)
  }

  /** `char.eol >> indent_guard(p_space_consumer, operator.gt, ref_level)`:
      a line break, then a line indented past the reference column. */
  function ChildLine(sc: Parser<string>, reference: nat): Parser<nat>
    requires Sound(sc)
  {
    Then(Char.Eol(), IndentGuard(sc, Gt, reference))
  }

  /** A pinned column as the `from_maybe` argument of the `IndentMany` branch. */
  function Pin(indent: Option<nat>): Option<Tried<nat>> {
    match indent
    case Some(n) => Some(Got(n))
    case None => None
  }

  /** The `IndentMany` branch of `indent_block`, from the cursor `k` after the
      head. The child-line lookahead is wrapped in `try_(...).optional()`; since
      `try_` never fails, `maybe_lvl` is never `None`, and a failed lookahead
      yields '' (`Empty`) with the cursor rolled back. */
  function ManyBlock<A, B>(sc: Parser<string>, reference: nat, indent: Option<nat>, f: seq<B> -> A,
                           p: Parser<B>, s: string, k: nat): (r: Result<Option<A>>)
    requires Sound(sc) && Advancing(p) && k <= |s|
    ensures r.Ok? ==> k <= r.next <= |s|
  {
    LookaheadSound(sc, reference);
    match Optional(Try(ChildLine(sc, reference)))(s, k)
    case Fail => Fail
    case Ok(maybeLvl, m) =>
      var done := Optional(As(Eof(), true))(s, m).value;
      if done.None? && maybeLvl.Some? then
        var nextLevel := FromMaybe(maybeLvl.value, Pin(indent));
        match IndentedItems(reference, nextLevel, sc, p, s, m)
        case Fail => Fail
        case Ok(xs, n) => Ok(Some(f(xs)), n)
      else
        As(sc, Some(f([])))(s, m)
  }

  /** The `IndentSome` branch of `indent_block`, from the cursor `k` after the
      head. The child line is mandatory. Both `parsy.fail(...)` calls are built
      but never returned, so those branches succeed with Python's `None` with
      the cursor after the line break and the indentation. */
  function SomeBlock<A, B>(sc: Parser<string>, reference: nat, indent: Option<nat>, f: seq<B> -> A,
                           p: Parser<B>, s: string, k: nat): (r: Result<Option<A>>)
    requires Sound(sc) && Advancing(p) && k <= |s|
    ensures r.Ok? ==> k < r.next <= |s|
  {
    ChildLineSound(sc, reference);
    match ChildLine(sc, reference)(s, k)
    case Fail => Fail
    case Ok(pos, m) =>
      var lvl := FromMaybe(pos, indent);
      if pos <= reference then Ok(None, m)
      else if pos == lvl then
        match p(s, m)
        case Fail => Fail
        case Ok(x, m') =>
          match IndentedItems(reference, Got(lvl), sc, p, s, m')
          case Fail => Fail
          case Ok(xs, n) => Ok(Some(f([x] + xs)), n)
      else Ok(None, m)
  }

  /** `indent_block(p_space_consumer, p_reference)`: skip white space, take
      the column of the head as the reference, parse the head and act on the
      strategy it returns. The block's value is `Some(v)` for a value `v`, and
      `None` for the Python `None` of the `IndentSome` fall-through. */
  function IndentBlock<A, B>(sc: Parser<string>, head: Parser<IndentOpt<A, B>>): Parser<Option<A>>
    requires Sound(sc) && Sound(head) && ItemsAdvance(head)
  {
    (s: string, i: nat) =>
      if |s| < i then Fail
      else
        match sc(s, i)
        case Fail => Fail
        case Ok(_, j) =>
          var reference := Column(s, j);
          match head(s, j)
          case Fail => Fail
          case Ok(opt, k) =>
            match opt
            case IndentNone(v) => As(sc, Some(v))(s, k)
            case IndentMany(indent, f, p) => ManyBlock(sc, reference, indent, f, p, s, k)
            case IndentSome(indent, f, p) => SomeBlock(sc, reference, indent, f, p, s, k)
  }

  /** The white-space consumer `line_fold` hands to its callback:
      `try_(indent_guard(p_space_consumer, operator.gt, current).result(''))`. */
  function FoldSpace(sc: Parser<string>, start: nat): Parser<Tried<string>>
    requires Sound(sc)
  {
    Try(As(IndentGuard(sc, Gt, start), ""))
  }

  /** `line_fold(p_space_consumer, callback)`: skip white space, note the
      column, run the callback's parser with the fold's white-space consumer,
      then the outer white-space consumer. */
  function LineFold<T>(sc: Parser<string>, callback: Parser<Tried<string>> -> Parser<T>): Parser<T>
    requires Sound(sc)
  {
    (s: string, i: nat) =>
      if |s| < i then Fail
      else
        match sc(s, i)
        case Fail => Fail
        case Ok(_, j) => Skip(callback(FoldSpace(sc, Column(s, j))), sc)(s, j)
  }

  // ---------------------------------------------------------------------------
  // Soundness of the combinators.

  lemma IndentGuardSound(sc: Parser<string>, rel: Relation, reference: nat)
    requires Sound(sc)
    ensures Sound(IndentGuard(sc, rel, reference))
  {
  }

  lemma ChildLineSound(sc: Parser<string>, reference: nat)
    requires Sound(sc)
    ensures Advancing(ChildLine(sc, reference))
  {
    Char.EolSound();
    IndentGuardSound(sc, Gt, reference);
    ThenSound(Char.Eol(), IndentGuard(sc, Gt, reference));
  }

  lemma LookaheadSound(sc: Parser<string>, reference: nat)
    requires Sound(sc)
    ensures Sound(Optional(Try(ChildLine(sc, reference))))
  {
    ChildLineSound(sc, reference);
    TrySound(ChildLine(sc, reference));
    OptionalSound(Try(ChildLine(sc, reference)));
  }
}
