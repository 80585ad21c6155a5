/** The three-level block of the property test `test_indent_block` in
    tests/char/test_lexer.py, and the table of column conditions under which
    that test expects it to fail or to succeed.

        aaa            IndentMany pinned at `level`, children are `bbb` blocks
            bbb        IndentSome with no pinned column, children are `ccc`
              ccc      IndentNone
            bbb
              ccc
*/
module BlockTable {
  import opened Parsy
  import opened Utils
  import Char
  import Lexer
  import opened CharLexer
  import opened Layout

  /** The Python values the grammar builds: strings, `(tag, list)` tuples,
      and `None`. */
  datatype Py = PyNone | Str(text: string) | Pair(tag: string, items: seq<Py>)

  function AsPy(v: Option<Py>): Py {
    match v
    case Some(x) => x
    case None => PyNone
  }

  predicate IsBlank(c: char) {
    c == ' ' || c == '\t'
  }

  /** `sc = space(parsy.regex(r'( |\t)+').result(''))`: blanks only. */
  function Sc(): Parser<string> {
    Lexer.Space(As(Regex(IsBlank, true), ""))
  }

  /** `scn = space(char.space1)`: all white space, line breaks included. */
  function Scn(): Parser<string> {
    Lexer.Space(Char.Space1())
  }

  lemma ScAt(s: string, i: nat)
    requires i <= |s|
    ensures Sc()(s, i) == Ok("", Span(s, i, IsBlank))
  {
    Lexer.SpaceDefault(As(Regex(IsBlank, true), ""), s, i);
  }

  lemma ScnAt(s: string, i: nat)
    requires i <= |s|
    ensures Scn()(s, i) == Ok("", Span(s, i, Char.IsSpace))
  {
    Lexer.SpaceDefault(Char.Space1(), s, i);
    Char.Space1SkipsRun(s, i);
  }

  lemma ConsumersSound()
    ensures Sound(Sc()) && Sound(Scn())
  {
    forall s: string, i: nat | i <= |s|
      ensures Sc()(s, i).Ok? ==> i <= Sc()(s, i).next <= |s|
      ensures Scn()(s, i).Ok? ==> i <= Scn()(s, i).next <= |s|
    {
      ScAt(s, i);
      ScnAt(s, i);
    }
  }

  lemma SymbolAt(w: string, s: string, p: nat)
    requires p + |w| <= |s| && s[p..p + |w|] == w
    ensures Lexer.Symbol(w, Sc())(s, p) == Ok(w, Span(s, p + |w|, IsBlank))
  {
    Lexer.SymbolMatches(w, Sc(), s, p);
    ScAt(s, p + |w|);
  }

  lemma SymbolAdvances(w: string)
    requires |w| > 0
    ensures Advancing(Lexer.Symbol(w, Sc()))
  {
    ConsumersSound();
    LiteralSound(w);
    Lexer.LexemeSound(Literal(w), Sc());
  }

  // The grammar, level by level.

  function HeadC(): Parser<IndentOpt<Py, Py>> {
    As(Lexer.Symbol("ccc", Sc()), IndentNone(Str("ccc")))
  }

  lemma HeadCSound()
    ensures Advancing(HeadC()) && ItemsAdvance(HeadC())
  {
    SymbolAdvances("ccc");
    var none: IndentOpt<Py, Py> := IndentNone(Str("ccc"));
    AsSound(Lexer.Symbol("ccc", Sc()), none);
  }

  function ItemC(): Parser<Py> {
    ConsumersSound();
    HeadCSound();
    Map(IndentBlock(Scn(), HeadC()), AsPy)
  }

  lemma ItemCAdvances()
    ensures Advancing(ItemC())
  {
    ConsumersSound();
    HeadCSound();
    IndentBlockAdvances(Scn(), HeadC());
    MapSound(IndentBlock(Scn(), HeadC()), AsPy);
  }

  /** `lambda l: ('bbb', l)` */
  function TagB(l: seq<Py>): Py {
    Pair("bbb", l)
  }

  function HeadB(): Parser<IndentOpt<Py, Py>> {
    As(Lexer.Symbol("bbb", Sc()), IndentSome(None, TagB, ItemC()))
  }

  lemma HeadBSound()
    ensures Advancing(HeadB()) && ItemsAdvance(HeadB())
  {
    SymbolAdvances("bbb");
    AsSound(Lexer.Symbol("bbb", Sc()), IndentSome(None, TagB, ItemC()));
    ItemCAdvances();
  }

  function ItemB(): Parser<Py> {
    ConsumersSound();
    HeadBSound();
    Map(IndentBlock(Scn(), HeadB()), AsPy)
  }

  lemma ItemBAdvances()
    ensures Advancing(ItemB())
  {
    ConsumersSound();
    HeadBSound();
    IndentBlockAdvances(Scn(), HeadB());
    MapSound(IndentBlock(Scn(), HeadB()), AsPy);
  }

  /** `lambda l: ('aaa', l)` */
  function TagA(l: seq<Py>): Py {
    Pair("aaa", l)
  }

  function HeadA(level: nat): Parser<IndentOpt<Py, Py>> {
    As(Lexer.Symbol("aaa", Sc()), IndentMany(Some(level), TagA, ItemB()))
  }

  lemma HeadASound(level: nat)
    ensures Sound(HeadA(level)) && ItemsAdvance(HeadA(level))
  {
    SymbolAdvances("aaa");
    AsSound(Lexer.Symbol("aaa", Sc()), IndentMany(Some(level), TagA, ItemB()));
    ItemBAdvances();
  }

  /** `lvla << parsy.eof`, the parser the test runs. */
  function Program(level: nat): Parser<Option<Py>> {
    ConsumersSound();
    HeadASound(level);
    Skip(IndentBlock(Scn(), HeadA(level)), Eof())
  }

  // The shape of the generated input, described by where its words are.

  /** The word `w` starts at `p` in column `col`; the blanks after it end at `q`. */
  ghost predicate WordAt(s: string, p: nat, w: string, col: nat, q: nat) {
    && p + |w| <= |s|
    && s[p..p + |w|] == w
    && Column(s, p) == col
    && q == Span(s, p + |w|, IsBlank)
  }

  /** At `q` a line break starts, and the white space from there ends at `p`,
      before more text. */
  ghost predicate BreakAt(s: string, q: nat, p: nat) {
    q < |s| && s[q] == '\n' && p == Span(s, q + 1, Char.IsSpace) && p < |s|
  }

  /** Five lines holding aaa, bbb, ccc, bbb, ccc, whose words start at `p[k]`
      in column `c[k]` and whose trailing blanks end at `q[k]`. */
  ghost predicate Shape(s: string, p: seq<nat>, q: seq<nat>, c: seq<nat>) {
    && |p| == 5 && |q| == 5 && |c| == 5
    && p[0] == Span(s, 0, Char.IsSpace)
    && WordAt(s, p[0], "aaa", c[0], q[0]) && BreakAt(s, q[0], p[1])
    && WordAt(s, p[1], "bbb", c[1], q[1]) && BreakAt(s, q[1], p[2])
    && WordAt(s, p[2], "ccc", c[2], q[2]) && BreakAt(s, q[2], p[3])
    && WordAt(s, p[3], "bbb", c[3], q[3]) && BreakAt(s, q[3], p[4])
    && WordAt(s, p[4], "ccc", c[4], q[4]) && q[4] == |s|
  }

  /** The test's decision table, in the test's order: any of these column
      conditions makes the parse fail. */
  predicate Rejected(c: seq<nat>, level: nat)
    requires |c| == 5
  {
    || c[1] <= c[0]
    || c[1] != level
    || c[2] <= c[1]
    || c[3] == c[2]
    || c[3] <= c[0]
    || c[3] < c[1]
    || c[3] > c[1]
    || c[4] <= c[3]
  }

  function Expected(): Py {
    Pair("aaa", [Pair("bbb", [Str("ccc")]), Pair("bbb", [Str("ccc")])])
  }

  lemma SpanAtText(s: string, p: nat)
    requires p < |s| && !Char.IsSpace(s[p])
    ensures Span(s, p, Char.IsSpace) == p
  {
  }

  lemma SpanFromBreak(s: string, q: nat, p: nat)
    requires BreakAt(s, q, p)
    ensures Span(s, q, Char.IsSpace) == p
  {
  }

  /** A `ccc` block returns its word and leaves the cursor after the white
      space that follows it. */
  lemma LevelCAtWord(s: string, p: nat, col: nat, q: nat)
    requires WordAt(s, p, "ccc", col, q)
    ensures ItemC()(s, p) == Ok(Str("ccc"), Span(s, q, Char.IsSpace))
  {
    ConsumersSound();
    HeadCSound();
    assert s[p] == "ccc"[0];
    SpanAtText(s, p);
    ScnAt(s, p);
    SymbolAt("ccc", s, p);
    IndentNoneValue(Scn(), HeadC(), s, p, Str("ccc"), q);
    ScnAt(s, q);
  }

  /** A `ccc` block fails on a `bbb` line. */
  lemma LevelCAtOther(s: string, p: nat)
    requires p + 3 <= |s| && s[p..p + 3] == "bbb"
    ensures ItemC()(s, p).Fail?
  {
    ConsumersSound();
    HeadCSound();
    assert s[p] == 'b';
    SpanAtText(s, p);
    ScnAt(s, p);
    assert s[p..p + 3] != "ccc" by { assert s[p..p + 3][0] != "ccc"[0]; }
    Lexer.SymbolMatches("ccc", Sc(), s, p);
    BlockNeedsHead(Scn(), HeadC(), s, p);
  }

  lemma SpanIdempotent(s: string, q: nat)
    requires q <= |s|
    ensures Span(s, Span(s, q, Char.IsSpace), Char.IsSpace) == Span(s, q, Char.IsSpace)
  {
    SpanMaximal(s, q, Char.IsSpace);
  }

  // Each level is proved over parsers described by what they do on the lines
  // of the shape; the grammar above is shown to fit each description.

  /** What the proofs use of `scn`: it skips the longest run of white space. */
  ghost predicate SkipsSpace(sc: Parser<string>) {
    forall s: string, i: nat {:trigger sc(s, i)} :: i <= |s| ==> sc(s, i) == Ok("", Span(s, i, Char.IsSpace))
  }

  /** The `ccc` item: on a `ccc` word it returns the word and leaves the
      cursor after the white space that follows; on a `bbb` word it fails. */
  ghost predicate IsItemC(item: Parser<Py>) {
    forall s: string, p: nat {:trigger item(s, p)} :: p + 3 <= |s| ==>
      && (s[p..p + 3] == "ccc" ==> item(s, p) == Ok(Str("ccc"), Span(s, Span(s, p + 3, IsBlank), Char.IsSpace)))
      && (s[p..p + 3] == "bbb" ==> item(s, p).Fail?)
  }

  /** The `bbb` head: on a `bbb` word it asks for one or more `item` children
      and leaves the cursor after the blanks that follow. */
  ghost predicate IsHeadB(head: Parser<IndentOpt<Py, Py>>, item: Parser<Py>) {
    forall s: string, p: nat {:trigger head(s, p)} :: p + 3 <= |s| && s[p..p + 3] == "bbb" ==>
      head(s, p) == Ok(IndentSome(None, TagB, item), Span(s, p + 3, IsBlank))
  }

  /** The `aaa` head: on an `aaa` word it asks for zero or more `item`
      children in column `level`. */
  ghost predicate IsHeadA(head: Parser<IndentOpt<Py, Py>>, level: nat, item: Parser<Py>) {
    forall s: string, p: nat {:trigger head(s, p)} :: p + 3 <= |s| && s[p..p + 3] == "aaa" ==>
      head(s, p) == Ok(IndentMany(Some(level), TagA, item), Span(s, p + 3, IsBlank))
  }

  /** A `bbb` line at `pb`, its `ccc` child on the next line, and then the end
      of the input or another `bbb` line. */
  ghost predicate BLines(s: string, pb: nat) {
    && pb + 3 <= |s| && s[pb..pb + 3] == "bbb"
    && var qb := Span(s, pb + 3, IsBlank);
       qb < |s| && s[qb] == '\n'
       && var pc := Span(s, qb + 1, Char.IsSpace);
          pc + 3 <= |s| && s[pc..pc + 3] == "ccc"
          && var r := Span(s, Span(s, pc + 3, IsBlank), Char.IsSpace);
             r == |s| || (r + 3 <= |s| && s[r..r + 3] == "bbb")
  }

  /** What a `bbb` block makes of `BLines`: an error unless the child is
      indented past `bbb`; the block ends at the next line when that line is
      at or left of `bbb` (or at the end of the input), and is an error when
      that line is further right. */
  ghost function BOutcome(s: string, pb: nat): Result<Py>
    requires BLines(s, pb)
  {
    var qb := Span(s, pb + 3, IsBlank);
    var pc := Span(s, qb + 1, Char.IsSpace);
    var r := Span(s, Span(s, pc + 3, IsBlank), Char.IsSpace);
    if Column(s, pc) <= Column(s, pb) then Fail
    else if r == |s| || Column(s, r) <= Column(s, pb) then Ok(TagB([Str("ccc")]), r)
    else Fail
  }

  ghost predicate IsItemB(item: Parser<Py>) {
    forall s: string, pb: nat {:trigger item(s, pb)} :: BLines(s, pb) ==> item(s, pb) == BOutcome(s, pb)
  }

  lemma UseSkipsSpace(sc: Parser<string>, s: string, i: nat)
    requires SkipsSpace(sc) && i <= |s|
    ensures sc(s, i) == Ok("", Span(s, i, Char.IsSpace))
  {
  }

  lemma UseItemC(item: Parser<Py>, s: string, p: nat)
    requires IsItemC(item) && p + 3 <= |s|
    ensures s[p..p + 3] == "ccc" ==> item(s, p) == Ok(Str("ccc"), Span(s, Span(s, p + 3, IsBlank), Char.IsSpace))
    ensures s[p..p + 3] == "bbb" ==> item(s, p).Fail?
  {
  }

  lemma UseHeadB(head: Parser<IndentOpt<Py, Py>>, item: Parser<Py>, s: string, p: nat)
    requires IsHeadB(head, item) && p + 3 <= |s| && s[p..p + 3] == "bbb"
    ensures head(s, p) == Ok(IndentSome(None, TagB, item), Span(s, p + 3, IsBlank))
  {
  }

  lemma UseHeadA(head: Parser<IndentOpt<Py, Py>>, level: nat, item: Parser<Py>, s: string, p: nat)
    requires IsHeadA(head, level, item) && p + 3 <= |s| && s[p..p + 3] == "aaa"
    ensures head(s, p) == Ok(IndentMany(Some(level), TagA, item), Span(s, p + 3, IsBlank))
  {
  }

  lemma UseItemB(item: Parser<Py>, s: string, pb: nat)
    requires IsItemB(item) && BLines(s, pb)
    ensures item(s, pb) == BOutcome(s, pb)
  {
  }

  /** An `IndentSome` block whose child line is indented past it: its first
      child, then whatever the collector makes of the lines after it. */
  lemma SomeBlockFirst(sc: Parser<string>, head: Parser<IndentOpt<Py, Py>>, item: Parser<Py>,
                       s: string, pb: nat, qb: nat, pc: nat, r: nat)
    requires SkipsSpace(sc) && Sound(sc) && Sound(head) && ItemsAdvance(head) && Advancing(item)
    requires pb < |s| && Span(s, pb, Char.IsSpace) == pb
    requires head(s, pb) == Ok(IndentSome(None, TagB, item), qb)
    requires BreakAt(s, qb, pc) && Column(s, pc) > Column(s, pb)
    requires item(s, pc) == Ok(Str("ccc"), r) && r <= |s|
    ensures var rest := IndentedItems(Column(s, pb), Got(Column(s, pc)), sc, item, s, r);
            IndentBlock(sc, head)(s, pb) ==
              if rest.Ok? then Ok(Some(TagB([Str("ccc")] + rest.value)), rest.next) else Fail
  {
    UseSkipsSpace(sc, s, pb);
    Char.EolAccepts(s, qb);
    UseSkipsSpace(sc, s, qb + 1);
    ChildLineIff(sc, Column(s, pb), s, qb);
    IndentSomeCollects(sc, head, s, pb, None, TagB, item, qb);
  }

  /** An `IndentSome` block whose child line is indented past it and holds
      one item: it ends at the next line at or left of the head. */
  lemma SomeBlockOneChild(sc: Parser<string>, head: Parser<IndentOpt<Py, Py>>, item: Parser<Py>,
                          s: string, pb: nat, qb: nat, pc: nat, r: nat)
    requires SkipsSpace(sc) && Sound(sc) && Sound(head) && ItemsAdvance(head) && Advancing(item)
    requires pb < |s| && Span(s, pb, Char.IsSpace) == pb
    requires head(s, pb) == Ok(IndentSome(None, TagB, item), qb)
    requires BreakAt(s, qb, pc) && Column(s, pc) > Column(s, pb)
    requires item(s, pc) == Ok(Str("ccc"), r) && r <= |s| && Span(s, r, Char.IsSpace) == r
    requires r == |s| || Column(s, r) <= Column(s, pb) || Column(s, r) != Column(s, pc) || item(s, r).Fail?
    ensures IndentBlock(sc, head)(s, pb) ==
              if r == |s| || Column(s, r) <= Column(s, pb) then Ok(Some(TagB([Str("ccc")])), r) else Fail
  {
    var cb, cc := Column(s, pb), Column(s, pc);
    SomeBlockFirst(sc, head, item, s, pb, qb, pc, r);
    UseSkipsSpace(sc, s, r);
    if r == |s| || Column(s, r) <= cb {
      ItemsStop(cb, Got(cc), sc, item, s, r);
      assert [Str("ccc")] + [] == [Str("ccc")];
    } else if Column(s, r) == cc {
      ItemsStep(cb, Got(cc), sc, item, s, r);
    } else {
      ItemsMisaligned(cb, Got(cc), sc, item, s, r);
    }
  }

  /** The positions `BLines` speaks of: the end of the blanks after `bbb`,
      the start of the child line, and where the white space after the child
      ends. */
  lemma BLinesParts(s: string, pb: nat) returns (qb: nat, pc: nat, r: nat)
    requires BLines(s, pb)
    ensures pb < |s| && Span(s, pb, Char.IsSpace) == pb
    ensures qb == Span(s, pb + 3, IsBlank) && BreakAt(s, qb, pc)
    ensures pc + 3 <= |s| && s[pc..pc + 3] == "ccc"
    ensures r == Span(s, Span(s, pc + 3, IsBlank), Char.IsSpace) && r <= |s| && Span(s, r, Char.IsSpace) == r
    ensures r == |s| || (r + 3 <= |s| && s[r..r + 3] == "bbb")
    ensures BOutcome(s, pb) ==
              if Column(s, pc) <= Column(s, pb) then Fail
              else if r == |s| || Column(s, r) <= Column(s, pb) then Ok(TagB([Str("ccc")]), r)
              else Fail
  {
    qb := Span(s, pb + 3, IsBlank);
    pc := Span(s, qb + 1, Char.IsSpace);
    r := Span(s, Span(s, pc + 3, IsBlank), Char.IsSpace);
    assert s[pb] == "bbb"[0];
    SpanAtText(s, pb);
    SpanIdempotent(s, Span(s, pc + 3, IsBlank));
  }

  /** An `IndentSome` block whose child line is not indented past it fails. */
  lemma SomeBlockNoChild(sc: Parser<string>, head: Parser<IndentOpt<Py, Py>>, item: Parser<Py>,
                         s: string, pb: nat, qb: nat, pc: nat)
    requires SkipsSpace(sc) && Sound(sc) && Sound(head) && ItemsAdvance(head)
    requires pb < |s| && Span(s, pb, Char.IsSpace) == pb
    requires head(s, pb) == Ok(IndentSome(None, TagB, item), qb)
    requires BreakAt(s, qb, pc) && Column(s, pc) <= Column(s, pb)
    ensures IndentBlock(sc, head)(s, pb).Fail?
  {
    UseSkipsSpace(sc, s, pb);
    Char.EolAccepts(s, qb);
    UseSkipsSpace(sc, s, qb + 1);
    ChildLineIff(sc, Column(s, pb), s, qb);
    IndentSomeNeedsChild(sc, head, s, pb, None, TagB, item, qb);
  }

  /** The `bbb` block, on the lines `BLines` describes. */
  lemma BlockBAt(sc: Parser<string>, head: Parser<IndentOpt<Py, Py>>, item: Parser<Py>, s: string, pb: nat)
    requires SkipsSpace(sc) && Sound(sc) && Sound(head) && ItemsAdvance(head) && Advancing(item)
    requires IsHeadB(head, item) && IsItemC(item) && BLines(s, pb)
    ensures Map(IndentBlock(sc, head), AsPy)(s, pb) == BOutcome(s, pb)
  {
    var qb, pc, r := BLinesParts(s, pb);
    UseHeadB(head, item, s, pb);
    if Column(s, pc) <= Column(s, pb) {
      SomeBlockNoChild(sc, head, item, s, pb, qb, pc);
    } else {
      UseItemC(item, s, pc);
      if r < |s| {
        UseItemC(item, s, r);
      }
      SomeBlockOneChild(sc, head, item, s, pb, qb, pc, r);
    }
    MapOutcome(IndentBlock(sc, head), AsPy, s, pb);
  }

  lemma MapOutcome<T, U>(p: Parser<T>, f: T -> U, s: string, i: nat)
    ensures Map(p, f)(s, i) == if p(s, i).Ok? then Ok(f(p(s, i).value), p(s, i).next) else Fail
  {
  }

  lemma ItemBGeneric(sc: Parser<string>, head: Parser<IndentOpt<Py, Py>>, item: Parser<Py>)
    requires SkipsSpace(sc) && Sound(sc) && Sound(head) && ItemsAdvance(head) && Advancing(item)
    requires IsHeadB(head, item) && IsItemC(item)
    ensures IsItemB(Map(IndentBlock(sc, head), AsPy))
  {
    forall s: string, pb: nat | BLines(s, pb)
      ensures Map(IndentBlock(sc, head), AsPy)(s, pb) == BOutcome(s, pb)
    {
      BlockBAt(sc, head, item, s, pb);
    }
  }

  /** A `bbb` word, its `ccc` child line, and what follows, as `BLines`. */
  lemma BLinesFrom(s: string, pb: nat, cb: nat, qb: nat, pc: nat, cc: nat, qc: nat)
    requires WordAt(s, pb, "bbb", cb, qb) && BreakAt(s, qb, pc) && WordAt(s, pc, "ccc", cc, qc)
    requires var r := Span(s, qc, Char.IsSpace); r == |s| || (r + 3 <= |s| && s[r..r + 3] == "bbb")
    ensures BLines(s, pb)
    ensures var r := Span(s, qc, Char.IsSpace);
            BOutcome(s, pb) ==
              if cc <= cb then Fail
              else if r == |s| || Column(s, r) <= cb then Ok(TagB([Str("ccc")]), r)
              else Fail
  {
    assert |"bbb"| == 3 && |"ccc"| == 3;
    BLinesOf(s, pb, qb, pc, qc, Span(s, qc, Char.IsSpace));
  }

  /** `BLines` from the positions it names. */
  lemma BLinesOf(s: string, pb: nat, qb: nat, pc: nat, qc: nat, r: nat)
    requires pb + 3 <= |s| && s[pb..pb + 3] == "bbb" && qb == Span(s, pb + 3, IsBlank)
    requires qb < |s| && s[qb] == '\n' && pc == Span(s, qb + 1, Char.IsSpace)
    requires pc + 3 <= |s| && s[pc..pc + 3] == "ccc" && qc == Span(s, pc + 3, IsBlank)
    requires r == Span(s, qc, Char.IsSpace) && (r == |s| || (r + 3 <= |s| && s[r..r + 3] == "bbb"))
    ensures BLines(s, pb)
  {
  }

  /** A word at `p` starts no white space run. */
  lemma WordStart(s: string, p: nat, w: string, col: nat, q: nat)
    requires WordAt(s, p, w, col, q) && |w| > 0 && !Char.IsSpace(w[0])
    ensures p < |s| && Span(s, p, Char.IsSpace) == p
  {
    assert s[p] == w[0];
  }

  /** The second `bbb` block, collected in the column of the first: the
      collection stops before it when it sits at or left of `aaa`. */
  lemma SecondChild(sc: Parser<string>, item: Parser<Py>, s: string, p: seq<nat>, q: seq<nat>, c: seq<nat>, level: nat)
    requires SkipsSpace(sc) && Sound(sc) && Advancing(item) && IsItemB(item)
    requires Shape(s, p, q, c) && c[1] > c[0] && c[1] == level
    ensures IndentedItems(c[0], Got(level), sc, item, s, p[3]) ==
              if c[3] <= c[0] then Ok([], p[3])
              else if c[3] != c[1] || c[4] <= c[3] then Fail
              else Ok([TagB([Str("ccc")])], |s|)
  {
    WordStart(s, p[3], "bbb", c[3], q[3]);
    UseSkipsSpace(sc, s, p[3]);
    var items := IndentedItems(c[0], Got(level), sc, item, s, p[3]);
    if c[3] <= c[0] {
      ItemsStop(c[0], Got(level), sc, item, s, p[3]);
      assert items == Ok([], p[3]);
    } else if c[3] != c[1] {
      ItemsMisaligned(c[0], Got(level), sc, item, s, p[3]);
      assert items.Fail?;
    } else {
      BLinesFrom(s, p[3], c[3], q[3], p[4], c[4], q[4]);
      UseItemB(item, s, p[3]);
      ItemsStep(c[0], Got(level), sc, item, s, p[3]);
      if c[4] > c[3] {
        assert Span(s, q[4], Char.IsSpace) == |s|;
        assert item(s, p[3]) == Ok(TagB([Str("ccc")]), |s|);
        UseSkipsSpace(sc, s, |s|);
        ItemsStop(c[0], Got(level), sc, item, s, |s|);
        assert [TagB([Str("ccc")])] + [] == [TagB([Str("ccc")])];
      } else {
        assert items.Fail?;
      }
    }
  }

  /** The first `bbb` block: it ends at the second `bbb` line unless its
      child is not indented past it or that line sits right of it. */
  lemma FirstChild(sc: Parser<string>, item: Parser<Py>, s: string, p: seq<nat>, q: seq<nat>, c: seq<nat>, level: nat)
    requires SkipsSpace(sc) && Sound(sc) && Advancing(item) && IsItemB(item)
    requires Shape(s, p, q, c) && c[1] > c[0] && c[1] == level
    ensures var second := IndentedItems(c[0], Got(level), sc, item, s, p[3]);
            IndentedItems(c[0], Got(level), sc, item, s, p[1]) ==
              if c[2] <= c[1] || c[3] > c[1] || second.Fail? then Fail
              else Ok([TagB([Str("ccc")])] + second.value, second.next)
  {
    WordStart(s, p[1], "bbb", c[1], q[1]);
    UseSkipsSpace(sc, s, p[1]);
    SpanFromBreak(s, q[2], p[3]);
    BLinesFrom(s, p[1], c[1], q[1], p[2], c[2], q[2]);
    UseItemB(item, s, p[1]);
    ItemsStep(c[0], Got(level), sc, item, s, p[1]);
  }

  /** The `aaa` head and the line break after it. */
  lemma TopHead(sc: Parser<string>, head: Parser<IndentOpt<Py, Py>>, item: Parser<Py>, level: nat,
                s: string, p0: nat, c0: nat, q0: nat, p1: nat)
    requires SkipsSpace(sc) && Sound(sc) && IsHeadA(head, level, item)
    requires p0 == Span(s, 0, Char.IsSpace) && WordAt(s, p0, "aaa", c0, q0) && BreakAt(s, q0, p1)
    ensures HeadAt(sc, head, s, 0, IndentMany(Some(level), TagA, item), q0)
    ensures RefColumn(sc, s, 0) == c0
    ensures ChildLine(sc, c0)(s, q0) == if Column(s, p1) > c0 then Ok(Column(s, p1), p1) else Fail
  {
    UseSkipsSpace(sc, s, 0);
    UseHeadA(head, level, item, s, p0);
    Char.EolAccepts(s, q0);
    UseSkipsSpace(sc, s, q0 + 1);
    ChildLineIff(sc, c0, s, q0);
  }

  /** No child line under `aaa`: the block is `('aaa', [])` and stops at the
      next line. */
  lemma TopShallow(sc: Parser<string>, head: Parser<IndentOpt<Py, Py>>, item: Parser<Py>, level: nat,
                   s: string, p0: nat, c0: nat, q0: nat, p1: nat)
    requires SkipsSpace(sc) && Sound(sc) && Sound(head) && ItemsAdvance(head) && Advancing(item)
    requires IsHeadA(head, level, item)
    requires p0 == Span(s, 0, Char.IsSpace) && WordAt(s, p0, "aaa", c0, q0) && BreakAt(s, q0, p1)
    requires Column(s, p1) <= c0
    ensures IndentBlock(sc, head)(s, 0) == Ok(Some(TagA([])), p1)
  {
    TopHead(sc, head, item, level, s, p0, c0, q0, p1);
    assert LookaheadEnd(sc, c0, s, q0) == q0;
    IndentManyCollects(sc, head, s, 0, Some(level), TagA, item, q0);
    SpanFromBreak(s, q0, p1);
    UseSkipsSpace(sc, s, q0);
    ItemsStop(c0, Got(level), sc, item, s, q0);
  }

  /** A child line under `aaa`: the block is `('aaa', items)` for the items
      collected from it in column `level`. */
  lemma TopDeep(sc: Parser<string>, head: Parser<IndentOpt<Py, Py>>, item: Parser<Py>, level: nat,
                s: string, p0: nat, c0: nat, q0: nat, p1: nat)
    requires SkipsSpace(sc) && Sound(sc) && Sound(head) && ItemsAdvance(head) && Advancing(item)
    requires IsHeadA(head, level, item)
    requires p0 == Span(s, 0, Char.IsSpace) && WordAt(s, p0, "aaa", c0, q0) && BreakAt(s, q0, p1)
    requires Column(s, p1) > c0
    ensures var items := IndentedItems(c0, Got(level), sc, item, s, p1);
            IndentBlock(sc, head)(s, 0) == if items.Ok? then Ok(Some(TagA(items.value)), items.next) else Fail
  {
    TopHead(sc, head, item, level, s, p0, c0, q0, p1);
    assert LookaheadEnd(sc, c0, s, q0) == p1;
    IndentManyCollects(sc, head, s, 0, Some(level), TagA, item, q0);
  }

  /** The top block's children, from the first `bbb` line on: both `bbb`
      blocks, up to the end of the input, when the table accepts; otherwise an
      error or a stop before the end. */
  lemma TopItems(sc: Parser<string>, item: Parser<Py>, s: string, p: seq<nat>, q: seq<nat>, c: seq<nat>, level: nat)
    requires SkipsSpace(sc) && Sound(sc) && Advancing(item) && IsItemB(item)
    requires Shape(s, p, q, c) && c[1] > c[0]
    ensures var items := IndentedItems(c[0], Got(level), sc, item, s, p[1]);
            && (!Rejected(c, level) ==> items == Ok([TagB([Str("ccc")]), TagB([Str("ccc")])], |s|))
            && (Rejected(c, level) ==> items.Fail? || items.next < |s|)
  {
    if c[1] != level {
      WordStart(s, p[1], "bbb", c[1], q[1]);
      UseSkipsSpace(sc, s, p[1]);
      ItemsMisaligned(c[0], Got(level), sc, item, s, p[1]);
    } else {
      SecondChild(sc, item, s, p, q, c, level);
      FirstChild(sc, item, s, p, q, c, level);
      TableCases(c, level, p[3], |s|,
                 IndentedItems(c[0], Got(level), sc, item, s, p[3]),
                 IndentedItems(c[0], Got(level), sc, item, s, p[1]));
    }
  }

  /** The column arithmetic behind the table, once the two `bbb` blocks are
      known to give `first` and `second`. */
  lemma TableCases(c: seq<nat>, level: nat, p3: nat, n: nat, second: Result<seq<Py>>, first: Result<seq<Py>>)
    requires |c| == 5 && c[1] > c[0] && c[1] == level && p3 < n
    requires second == if c[3] <= c[0] then Ok([], p3)
                       else if c[3] != c[1] || c[4] <= c[3] then Fail
                       else Ok([TagB([Str("ccc")])], n)
    requires first == if c[2] <= c[1] || c[3] > c[1] || second.Fail? then Fail
                      else Ok([TagB([Str("ccc")])] + second.value, second.next)
    ensures !Rejected(c, level) ==> first == Ok([TagB([Str("ccc")]), TagB([Str("ccc")])], n)
    ensures Rejected(c, level) ==> first.Fail? || first.next < n
  {
    if !Rejected(c, level) {
      assert [TagB([Str("ccc")])] + [TagB([Str("ccc")])] == [TagB([Str("ccc")]), TagB([Str("ccc")])];
    }
  }

  /** `p << parsy.eof`: `p`, which must stop at the end of the input. */
  lemma SkipEof<T>(p: Parser<T>, s: string, i: nat)
    requires Sound(p) && i <= |s|
    ensures Skip(p, Eof())(s, i) == if p(s, i).Ok? && p(s, i).next == |s| then p(s, i) else Fail
  {
  }

  /** The top block, over any white-space consumer, head and child parser
      that behave as the grammar's do. */
  lemma TableGeneric(sc: Parser<string>, head: Parser<IndentOpt<Py, Py>>, item: Parser<Py>,
                     s: string, p: seq<nat>, q: seq<nat>, c: seq<nat>, level: nat)
    requires SkipsSpace(sc) && Sound(sc) && Sound(head) && ItemsAdvance(head) && Advancing(item)
    requires IsHeadA(head, level, item) && IsItemB(item) && Shape(s, p, q, c)
    ensures Skip(IndentBlock(sc, head), Eof())(s, 0) ==
              if Rejected(c, level) then Fail else Ok(Some(Expected()), |s|)
  {
    IndentBlockAdvances(sc, head);
    SkipEof(IndentBlock(sc, head), s, 0);
    if c[1] <= c[0] {
      TopShallow(sc, head, item, level, s, p[0], c[0], q[0], p[1]);
    } else {
      TopDeep(sc, head, item, level, s, p[0], c[0], q[0], p[1]);
      TopItems(sc, item, s, p, q, c, level);
    }
  }

  // The grammar fits the descriptions.

  lemma ItemCFits()
    ensures IsItemC(ItemC())
  {
    forall s: string, p: nat | p + 3 <= |s|
      ensures s[p..p + 3] == "ccc" ==> ItemC()(s, p) == Ok(Str("ccc"), Span(s, Span(s, p + 3, IsBlank), Char.IsSpace))
      ensures s[p..p + 3] == "bbb" ==> ItemC()(s, p).Fail?
    {
      if s[p..p + 3] == "ccc" {
        LevelCAtWord(s, p, Column(s, p), Span(s, p + 3, IsBlank));
      }
      if s[p..p + 3] == "bbb" {
        LevelCAtOther(s, p);
      }
    }
  }

  lemma HeadBFits()
    ensures IsHeadB(HeadB(), ItemC())
  {
    forall s: string, p: nat | p + 3 <= |s| && s[p..p + 3] == "bbb"
      ensures HeadB()(s, p) == Ok(IndentSome(None, TagB, ItemC()), Span(s, p + 3, IsBlank))
    {
      SymbolAt("bbb", s, p);
    }
  }

  lemma HeadAFits(level: nat)
    ensures IsHeadA(HeadA(level), level, ItemB())
  {
    forall s: string, p: nat | p + 3 <= |s| && s[p..p + 3] == "aaa"
      ensures HeadA(level)(s, p) == Ok(IndentMany(Some(level), TagA, ItemB()), Span(s, p + 3, IsBlank))
    {
      SymbolAt("aaa", s, p);
    }
  }

  lemma ItemBFits()
    ensures IsItemB(ItemB())
  {
    ConsumersSound();
    ScnSkipsSpace();
    HeadBSound();
    ItemCAdvances();
    ItemCFits();
    HeadBFits();
    ItemBGeneric(Scn(), HeadB(), ItemC());
  }

  lemma ScnSkipsSpace()
    ensures SkipsSpace(Scn())
  {
    forall s: string, i: nat | i <= |s|
      ensures Scn()(s, i) == Ok("", Span(s, i, Char.IsSpace))
    {
      ScnAt(s, i);
    }
  }

  /** The decision table of `test_indent_block`: on every input of the
      generated shape, the parse fails exactly when the table says so, and
      otherwise consumes the whole input and returns
      `('aaa', [('bbb', ['ccc']), ('bbb', ['ccc'])])`. */
  lemma DecisionTable(s: string, p: seq<nat>, q: seq<nat>, c: seq<nat>, level: nat)
    requires Shape(s, p, q, c)
    ensures Program(level)(s, 0) == if Rejected(c, level) then Fail else Ok(Some(Expected()), |s|)
  {
    ConsumersSound();
    ScnSkipsSpace();
    HeadASound(level);
    ItemBAdvances();
    HeadAFits(level);
    ItemBFits();
    TableGeneric(Scn(), HeadA(level), ItemB(), s, p, q, c, level);
  }
}
