/** What the indentation combinators of megaparsy/char/lexer.py guarantee, for
    every input, every white-space consumer and every item parser. */
module Layout {
  import opened Parsy
  import opened Utils
  import Char
  import opened CharLexer

  // ---------------------------------------------------------------------------
  // indent_guard and non_indented

  /** `indent_guard` succeeds exactly when the column reached by the white-space
      consumer stands in the relation to the reference column, and then returns
      that column with the cursor where the consumer left it. */
  lemma IndentGuardIff(sc: Parser<string>, rel: Relation, reference: nat, s: string, i: nat)
    requires Sound(sc) && i <= |s|
    ensures IndentGuard(sc, rel, reference)(s, i).Ok? <==>
              sc(s, i).Ok? && Holds(rel, Column(s, sc(s, i).next), reference)
    ensures IndentGuard(sc, rel, reference)(s, i).Ok? ==>
              IndentGuard(sc, rel, reference)(s, i) == Ok(Column(s, sc(s, i).next), sc(s, i).next)
  {
  }

  /** `non_indented` returns the content's result when the content starts in
      column 0 after the white space, and fails at any positive indentation. */
  lemma NonIndentedIff<T>(sc: Parser<string>, content: Parser<T>, s: string, i: nat)
    requires Sound(sc) && i <= |s| && sc(s, i).Ok?
    ensures Column(s, sc(s, i).next) == 0 ==> NonIndented(sc, content)(s, i) == content(s, sc(s, i).next)
    ensures Column(s, sc(s, i).next) > 0 ==> NonIndented(sc, content)(s, i).Fail?
  {
    IndentGuardIff(sc, Eq, 0, s, i);
  }

  // ---------------------------------------------------------------------------
  // skip_line_comment

  /** `skip_line_comment(prefix)` succeeds exactly when the prefix is at the
      cursor. It then returns '' and stops at the first line feed after the
      prefix, which it leaves for the caller, or at the end of the input. */
  lemma SkipLineCommentStops(prefix: string, s: string, i: nat)
    requires i <= |s|
    ensures SkipLineComment(prefix)(s, i).Ok? <==> i + |prefix| <= |s| && s[i..i + |prefix|] == prefix
    ensures SkipLineComment(prefix)(s, i).Ok? ==>
              var r := SkipLineComment(prefix)(s, i);
              && r.value == ""
              && i + |prefix| <= r.next <= |s|
              && (forall k :: i + |prefix| <= k < r.next ==> s[k] != '\n')
              && (r.next == |s| || s[r.next] == '\n')
  {
    if i + |prefix| <= |s| && s[i..i + |prefix|] == prefix {
      SpanMaximal(s, i + |prefix|, NotNewline);
    }
  }

  // ---------------------------------------------------------------------------
  // _indented_items

  /** The collector stops without an item at the end of the input or at a line
      at or left of the reference column, keeping only the white space it
      skipped; it is checked for the end of the input first. */
  lemma ItemsStop<B>(reference: nat, level: Tried<nat>, sc: Parser<string>, p: Parser<B>, s: string, i: nat)
    requires Sound(sc) && Advancing(p) && i <= |s| && sc(s, i).Ok?
    requires sc(s, i).next == |s| || Column(s, sc(s, i).next) <= reference
    ensures IndentedItems(reference, level, sc, p, s, i) == Ok([], sc(s, i).next)
  {
  }

  /** A line indented past the reference column but not in the block's column
      is an error, never a silent end of the block. */
  lemma ItemsMisaligned<B>(reference: nat, level: Tried<nat>, sc: Parser<string>, p: Parser<B>, s: string, i: nat)
    requires Sound(sc) && Advancing(p) && i <= |s| && sc(s, i).Ok?
    requires sc(s, i).next < |s| && Column(s, sc(s, i).next) > reference
    requires level != Got(Column(s, sc(s, i).next))
    ensures IndentedItems(reference, level, sc, p, s, i).Fail?
  {
  }

  /** A line in the block's column holds an item, and the collector goes on
      after it. */
  lemma ItemsStep<B>(reference: nat, level: Tried<nat>, sc: Parser<string>, p: Parser<B>, s: string, i: nat)
    requires Sound(sc) && Advancing(p) && i <= |s| && sc(s, i).Ok?
    requires sc(s, i).next < |s| && Column(s, sc(s, i).next) > reference
    requires level == Got(Column(s, sc(s, i).next))
    ensures var j := sc(s, i).next;
            && (p(s, j).Fail? ==> IndentedItems(reference, level, sc, p, s, i).Fail?)
            && (p(s, j).Ok? ==>
                  var rest := IndentedItems(reference, level, sc, p, s, p(s, j).next);
                  && (IndentedItems(reference, level, sc, p, s, i).Ok? <==> rest.Ok?)
                  && (rest.Ok? ==> IndentedItems(reference, level, sc, p, s, i) == Ok([p(s, j).value] + rest.value, rest.next)))
  {
  }

  /** With no column to match (no child line and no pinned column), the
      collector either finds nothing to collect or fails. */
  lemma ItemsWithoutLevel<B>(reference: nat, sc: Parser<string>, p: Parser<B>, s: string, i: nat)
    requires Sound(sc) && Advancing(p) && i <= |s|
    ensures var r := IndentedItems(reference, Empty, sc, p, s, i);
            r.Ok? <==> sc(s, i).Ok? && (sc(s, i).next == |s| || Column(s, sc(s, i).next) <= reference)
    ensures IndentedItems(reference, Empty, sc, p, s, i).Ok? ==>
              IndentedItems(reference, Empty, sc, p, s, i) == Ok([], sc(s, i).next)
  {
  }

  /** The layout the collector accepts, stated on its own: from cursor `i`,
      the white space leads to the first of `starts`, where an item with the
      first of `xs` sits in column `level`, past the reference column, and so on
      from the end of each item; after the last item the white space leads to
      `n`, which is the end of the input or a line at or left of the reference
      column. */
  ghost predicate Collects<B>(reference: nat, level: Tried<nat>, sc: Parser<string>, p: Parser<B>,
                              s: string, i: nat, starts: seq<nat>, xs: seq<B>, n: nat)
    decreases |starts|
  {
    && i <= |s|
    && |starts| == |xs|
    && sc(s, i).Ok?
    && sc(s, i).next <= |s|
    && var j := sc(s, i).next;
       if starts == [] then
         n == j && (j == |s| || Column(s, j) <= reference)
       else
         && starts[0] == j
         && j < |s|
         && Column(s, j) > reference
         && level == Got(Column(s, j))
         && p(s, j).Ok?
         && p(s, j).value == xs[0]
         && Collects(reference, level, sc, p, s, p(s, j).next, starts[1..], xs[1..], n)
  }

  /** Where the collector finds its items. */
  ghost function ItemStarts<B>(reference: nat, level: Tried<nat>, sc: Parser<string>, p: Parser<B>,
                               s: string, i: nat): seq<nat>
    requires Sound(sc) && Advancing(p) && i <= |s|
    decreases |s| - i
  {
    match sc(s, i)
    case Fail => []
    case Ok(_, j) =>
      if j == |s| || Column(s, j) <= reference || level != Got(Column(s, j)) then []
      else
        match p(s, j)
        case Fail => []
        case Ok(_, k) => [j] + ItemStarts(reference, level, sc, p, s, k)
  }

  /** Every result of the collector is a layout it accepts: in particular
      each item it returns was parsed from a line in exactly the column `level`. */
  lemma {:induction false} ItemsCollect<B>(reference: nat, level: Tried<nat>, sc: Parser<string>, p: Parser<B>,
                                           s: string, i: nat)
    requires Sound(sc) && Advancing(p) && i <= |s|
    requires IndentedItems(reference, level, sc, p, s, i).Ok?
    ensures var r := IndentedItems(reference, level, sc, p, s, i);
            Collects(reference, level, sc, p, s, i, ItemStarts(reference, level, sc, p, s, i), r.value, r.next)
    decreases |s| - i
  {
    var j := sc(s, i).next;
    if j == |s| || Column(s, j) <= reference {
    } else {
      var k := p(s, j).next;
      ItemsCollect(reference, level, sc, p, s, k);
      var rest := ItemStarts(reference, level, sc, p, s, k);
      assert ItemStarts(reference, level, sc, p, s, i) == [j] + rest;
      assert ([j] + rest)[1..] == rest;
    }
  }

  /** Conversely the collector returns exactly the items of any layout it
      accepts, so it neither stops early nor reads past the block. */
  lemma {:induction false} CollectsItems<B>(reference: nat, level: Tried<nat>, sc: Parser<string>, p: Parser<B>,
                                            s: string, i: nat, starts: seq<nat>, xs: seq<B>, n: nat)
    requires Sound(sc) && Advancing(p)
    requires Collects(reference, level, sc, p, s, i, starts, xs, n)
    ensures IndentedItems(reference, level, sc, p, s, i) == Ok(xs, n)
    decreases |starts|
  {
    if starts != [] {
      var j := sc(s, i).next;
      CollectsItems(reference, level, sc, p, s, p(s, j).next, starts[1..], xs[1..], n);
      assert xs == [xs[0]] + xs[1..];
    }
  }

  /** The items of an accepted layout all start in the block's column. */
  lemma {:induction false} CollectsAligned<B>(reference: nat, level: Tried<nat>, sc: Parser<string>, p: Parser<B>,
                                              s: string, i: nat, starts: seq<nat>, xs: seq<B>, n: nat)
    requires Collects(reference, level, sc, p, s, i, starts, xs, n)
    ensures forall t :: 0 <= t < |starts| ==>
              starts[t] < |s| && level == Got(Column(s, starts[t])) && Column(s, starts[t]) > reference
              && p(s, starts[t]).Ok? && p(s, starts[t]).value == xs[t]
    decreases |starts|
  {
    if starts != [] {
      var j := sc(s, i).next;
      CollectsAligned(reference, level, sc, p, s, p(s, j).next, starts[1..], xs[1..], n);
      forall t | 1 <= t < |starts|
        ensures starts[t] == starts[1..][t - 1] && xs[t] == xs[1..][t - 1]
      {
      }
    }
  }

  // ---------------------------------------------------------------------------
  // indent_block

  /** The child-line test `eol >> indent_guard(sc, gt, ref)`: a line break
      at the cursor, then white space up to a column past the reference. */
  lemma ChildLineIff(sc: Parser<string>, reference: nat, s: string, k: nat)
    requires Sound(sc) && k <= |s|
    ensures ChildLine(sc, reference)(s, k).Ok? <==>
              Char.Eol()(s, k).Ok? && sc(s, Char.Eol()(s, k).next).Ok?
              && Column(s, sc(s, Char.Eol()(s, k).next).next) > reference
    ensures ChildLine(sc, reference)(s, k).Ok? ==>
              var m := sc(s, Char.Eol()(s, k).next).next;
              ChildLine(sc, reference)(s, k) == Ok(Column(s, m), m) && Column(s, m) > reference
  {
    Char.EolSound();
    assert Char.Eol()(s, k).Ok? ==> Char.Eol()(s, k).next <= |s|;
  }

  /** The `IndentMany` lookahead never fails the block: it yields the child
      line's column with the cursor at the child's first character, or '' with
      the cursor rolled back. In particular `maybe_lvl` is never `None`. */
  lemma ManyLookahead(sc: Parser<string>, reference: nat, s: string, k: nat)
    requires Sound(sc) && k <= |s|
    ensures var r := Optional(Try(ChildLine(sc, reference)))(s, k);
            var c := ChildLine(sc, reference)(s, k);
            && r.Ok? && r.value.Some?
            && (c.Ok? ==> r == Ok(Some(Got(c.value)), c.next))
            && (c.Fail? ==> r == Ok(Some(Empty), k))
  {
    TryOutcome(ChildLine(sc, reference), s, k);
  }

  /** The block's head is reached after the outer white space. */
  ghost predicate HeadAt<A, B>(sc: Parser<string>, head: Parser<IndentOpt<A, B>>, s: string, i: nat, opt: IndentOpt<A, B>, k: nat)
  {
    sc(s, i).Ok? && head(s, sc(s, i).next) == Ok(opt, k)
  }

  /** The reference column: the column of the head. */
  ghost function RefColumn(sc: Parser<string>, s: string, i: nat): nat
    requires Sound(sc) && i <= |s| && sc(s, i).Ok?
  {
    Column(s, sc(s, i).next)
  }

  /** Unfolds `indent_block` once the head has returned `opt` at `k`: a step
      shared by the lemmas below, which state what each strategy yields. */
  lemma BlockDispatch<A, B>(sc: Parser<string>, head: Parser<IndentOpt<A, B>>, s: string, i: nat, opt: IndentOpt<A, B>, k: nat)
    requires Sound(sc) && Sound(head) && ItemsAdvance(head) && i <= |s|
    requires HeadAt(sc, head, s, i, opt, k)
    ensures k <= |s| && (!opt.IndentNone? ==> Advancing(opt.p))
    ensures var reference := RefColumn(sc, s, i);
            IndentBlock(sc, head)(s, i) ==
              match opt
              case IndentNone(v) => As(sc, Some(v))(s, k)
              case IndentMany(indent, f, p) => ManyBlock(sc, reference, indent, f, p, s, k)
              case IndentSome(indent, f, p) => SomeBlock(sc, reference, indent, f, p, s, k)
  {
  }

  /** A block whose white space or head fails, fails. */
  lemma BlockNeedsHead<A, B>(sc: Parser<string>, head: Parser<IndentOpt<A, B>>, s: string, i: nat)
    requires Sound(sc) && Sound(head) && ItemsAdvance(head) && i <= |s|
    requires sc(s, i).Fail? || head(s, sc(s, i).next).Fail?
    ensures IndentBlock(sc, head)(s, i).Fail?
  {
  }

  /** `IndentNone(v)`: run the white-space consumer once more and return `v`
      unchanged. */
  lemma IndentNoneValue<A, B>(sc: Parser<string>, head: Parser<IndentOpt<A, B>>, s: string, i: nat, v: A, k: nat)
    requires Sound(sc) && Sound(head) && ItemsAdvance(head) && i <= |s|
    requires HeadAt(sc, head, s, i, IndentNone(v), k)
    ensures IndentBlock(sc, head)(s, i) == if sc(s, k).Ok? then Ok(Some(v), sc(s, k).next) else Fail
  {
    BlockDispatch(sc, head, s, i, IndentNone(v), k);
  }

  /** Where the `IndentMany` lookahead leaves the cursor, and the column it
      yields ('' when there is no child line). */
  ghost function LookaheadEnd(sc: Parser<string>, reference: nat, s: string, k: nat): nat
    requires Sound(sc)
  {
    match ChildLine(sc, reference)(s, k) case Ok(_, m) => m case Fail => k
  }

  ghost function LookaheadLevel(sc: Parser<string>, reference: nat, s: string, k: nat): Tried<nat>
    requires Sound(sc)
  {
    match ChildLine(sc, reference)(s, k) case Ok(c, _) => Got(c) case Fail => Empty
  }

  /** `IndentMany` at the end of the input (right after the head, or after the
      child-line lookahead): the value is `f([])` after the white space. */
  lemma IndentManyAtEnd<A, B>(sc: Parser<string>, head: Parser<IndentOpt<A, B>>, s: string, i: nat,
                              indent: Option<nat>, f: seq<B> -> A, p: Parser<B>, k: nat)
    requires Sound(sc) && Sound(head) && ItemsAdvance(head) && i <= |s|
    requires HeadAt(sc, head, s, i, IndentMany(indent, f, p), k)
    requires k <= |s| && LookaheadEnd(sc, RefColumn(sc, s, i), s, k) == |s|
    ensures IndentBlock(sc, head)(s, i) == if sc(s, |s|).Ok? then Ok(Some(f([])), sc(s, |s|).next) else Fail
  {
    BlockDispatch(sc, head, s, i, IndentMany(indent, f, p), k);
    ManyLookahead(sc, RefColumn(sc, s, i), s, k);
  }

  /** `IndentMany` before more input: the children are collected at the
      pinned column when there is one, otherwise at the column of the child
      line; the block fails exactly when the collection does. */
  lemma IndentManyCollects<A, B>(sc: Parser<string>, head: Parser<IndentOpt<A, B>>, s: string, i: nat,
                                 indent: Option<nat>, f: seq<B> -> A, p: Parser<B>, k: nat)
    requires Sound(sc) && Sound(head) && ItemsAdvance(head) && i <= |s|
    requires HeadAt(sc, head, s, i, IndentMany(indent, f, p), k)
    requires k <= |s| && LookaheadEnd(sc, RefColumn(sc, s, i), s, k) < |s|
    ensures Advancing(p)
    ensures var reference := RefColumn(sc, s, i);
            var m := LookaheadEnd(sc, reference, s, k);
            var level := if indent.Some? then Got(indent.value) else LookaheadLevel(sc, reference, s, k);
            var items := IndentedItems(reference, level, sc, p, s, m);
            && (IndentBlock(sc, head)(s, i).Ok? <==> items.Ok?)
            && (items.Ok? ==> IndentBlock(sc, head)(s, i) == Ok(Some(f(items.value)), items.next))
  {
    BlockDispatch(sc, head, s, i, IndentMany(indent, f, p), k);
    ManyLookahead(sc, RefColumn(sc, s, i), s, k);
  }

  /** `IndentMany` with no pinned column and no child line: the block is
      `f([])` when what follows sits at or left of the head's column (or is the
      end of the input), and an error when it sits further right. */
  lemma IndentManyNoChild<A, B>(sc: Parser<string>, head: Parser<IndentOpt<A, B>>, s: string, i: nat,
                                f: seq<B> -> A, p: Parser<B>, k: nat)
    requires Sound(sc) && Sound(head) && ItemsAdvance(head) && i <= |s|
    requires HeadAt(sc, head, s, i, IndentMany(None, f, p), k)
    requires k < |s| && ChildLine(sc, RefColumn(sc, s, i))(s, k).Fail?
    ensures var r := IndentBlock(sc, head)(s, i);
            && (r.Ok? <==> sc(s, k).Ok? && (sc(s, k).next == |s| || Column(s, sc(s, k).next) <= RefColumn(sc, s, i)))
            && (r.Ok? ==> r == Ok(Some(f([])), sc(s, k).next))
  {
    IndentManyCollects(sc, head, s, i, None, f, p, k);
    ItemsWithoutLevel(RefColumn(sc, s, i), sc, p, s, k);
  }

  /** `IndentSome` needs a child line: without a line break followed by a
      line indented past the head, the block fails. */
  lemma IndentSomeNeedsChild<A, B>(sc: Parser<string>, head: Parser<IndentOpt<A, B>>, s: string, i: nat,
                                   indent: Option<nat>, f: seq<B> -> A, p: Parser<B>, k: nat)
    requires Sound(sc) && Sound(head) && ItemsAdvance(head) && i <= |s|
    requires HeadAt(sc, head, s, i, IndentSome(indent, f, p), k)
    requires k <= |s| && ChildLine(sc, RefColumn(sc, s, i))(s, k).Fail?
    ensures IndentBlock(sc, head)(s, i).Fail?
  {
    BlockDispatch(sc, head, s, i, IndentSome(indent, f, p), k);
  }

  /** `IndentSome` whose child line sits in the required column: the first
      child is parsed where the line starts, the others are collected in that
      column, and the value is `f` of them all, which is never empty. */
  lemma IndentSomeCollects<A, B>(sc: Parser<string>, head: Parser<IndentOpt<A, B>>, s: string, i: nat,
                                 indent: Option<nat>, f: seq<B> -> A, p: Parser<B>, k: nat)
    requires Sound(sc) && Sound(head) && ItemsAdvance(head) && i <= |s|
    requires HeadAt(sc, head, s, i, IndentSome(indent, f, p), k)
    requires k <= |s| && ChildLine(sc, RefColumn(sc, s, i))(s, k).Ok?
    requires indent.None? || indent.value == ChildLine(sc, RefColumn(sc, s, i))(s, k).value
    ensures Advancing(p)
    ensures var reference := RefColumn(sc, s, i);
            var child := ChildLine(sc, reference)(s, k);
            var first := p(s, child.next);
            var rest := if first.Ok? && first.next <= |s| then IndentedItems(reference, Got(child.value), sc, p, s, first.next) else Fail;
            && (IndentBlock(sc, head)(s, i).Ok? <==> first.Ok? && rest.Ok?)
            && (rest.Ok? ==> IndentBlock(sc, head)(s, i) == Ok(Some(f([first.value] + rest.value)), rest.next))
  {
    BlockDispatch(sc, head, s, i, IndentSome(indent, f, p), k);
    ChildLineIff(sc, RefColumn(sc, s, i), s, k);
  }

  /** As written, a pinned `IndentSome` column that the child line does not
      match is not an error: the `parsy.fail` is never returned, so the block
      succeeds with Python's `None`, the cursor after the line break and the
      child's indentation, and no child parsed. */
  lemma IndentSomePinnedMismatch<A, B>(sc: Parser<string>, head: Parser<IndentOpt<A, B>>, s: string, i: nat,
                                       pin: nat, f: seq<B> -> A, p: Parser<B>, k: nat)
    requires Sound(sc) && Sound(head) && ItemsAdvance(head) && i <= |s|
    requires HeadAt(sc, head, s, i, IndentSome(Some(pin), f, p), k)
    requires k <= |s| && ChildLine(sc, RefColumn(sc, s, i))(s, k).Ok?
    requires pin != ChildLine(sc, RefColumn(sc, s, i))(s, k).value
    ensures IndentBlock(sc, head)(s, i) == Ok(None, ChildLine(sc, RefColumn(sc, s, i))(s, k).next)
  {
    BlockDispatch(sc, head, s, i, IndentSome(Some(pin), f, p), k);
    ChildLineIff(sc, RefColumn(sc, s, i), s, k);
  }

  /** A block never moves backwards nor past the end; it consumes input when
      its head does, so a block can itself be a child parser. */
  lemma IndentBlockAdvances<A, B>(sc: Parser<string>, head: Parser<IndentOpt<A, B>>)
    requires Sound(sc) && Sound(head) && ItemsAdvance(head)
    ensures Sound(IndentBlock(sc, head))
    ensures Advancing(head) ==> Advancing(IndentBlock(sc, head))
  {
    forall s: string, i: nat | i <= |s| && IndentBlock(sc, head)(s, i).Ok?
      ensures i <= IndentBlock(sc, head)(s, i).next <= |s|
      ensures Advancing(head) ==> i < IndentBlock(sc, head)(s, i).next
    {
      var j := sc(s, i).next;
      var reference := Column(s, j);
      var k := head(s, j).next;
      var opt := head(s, j).value;
      BlockDispatch(sc, head, s, i, opt, k);
      match opt
      case IndentNone(v) =>
      case IndentMany(indent, f, p) =>
        ManyLookahead(sc, reference, s, k);
        ChildLineSound(sc, reference);
      case IndentSome(indent, f, p) =>
        ChildLineSound(sc, reference);
    }
  }

  // ---------------------------------------------------------------------------
  // line_fold

  /** The fold's white-space consumer crosses white space (line breaks
      included) only when it lands in a column past the fold's start column;
      otherwise it consumes nothing at all and still succeeds. */
  lemma FoldSpaceCrosses(sc: Parser<string>, start: nat, s: string, i: nat)
    requires Sound(sc) && i <= |s|
    ensures FoldSpace(sc, start)(s, i) ==
              if sc(s, i).Ok? && Column(s, sc(s, i).next) > start then Ok(Got(""), sc(s, i).next)
              else Ok(Empty, i)
  {
    TryOutcome(As(IndentGuard(sc, Gt, start), ""), s, i);
  }

  lemma FoldSpaceSound(sc: Parser<string>, start: nat)
    requires Sound(sc)
    ensures Sound(FoldSpace(sc, start))
  {
    forall s: string, i: nat | i <= |s|
      ensures FoldSpace(sc, start)(s, i).Ok? ==> i <= FoldSpace(sc, start)(s, i).next <= |s|
    {
      FoldSpaceCrosses(sc, start, s, i);
    }
  }

  /** `line_fold` anchors its consumer at the column where the fold's first
      token starts, after the leading white space, and ends with the outer
      white-space consumer. */
  lemma LineFoldAnchors<T>(sc: Parser<string>, callback: Parser<Tried<string>> -> Parser<T>, s: string, i: nat)
    requires Sound(sc) && i <= |s| && sc(s, i).Ok?
    ensures var j := sc(s, i).next;
            var body := callback(FoldSpace(sc, Column(s, j)))(s, j);
            && (LineFold(sc, callback)(s, i).Ok? <==> body.Ok? && sc(s, body.next).Ok?)
            && (LineFold(sc, callback)(s, i).Ok? ==> LineFold(sc, callback)(s, i) == Ok(body.value, sc(s, body.next).next))
  {
  }
}
