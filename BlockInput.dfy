/** The inputs `test_indent_block` in tests/char/test_lexer.py generates: five
    lines `aaa`, `bbb`, `ccc`, `bbb`, `ccc`, each indented by blanks, with
    trailing blanks and one or more line feeds after every line but the last.
    Every such input has the shape `BlockTable.Shape` describes, with the
    columns the test computes, so the decision table holds for all of them. */
module BlockInput {
  import opened Parsy
  import Char
  import opened BlockTable

  /** One generated line: `make_indent` (or `make_indent_` for the last). */
  datatype LineSpec = LineSpec(indent: string, word: string, trailing: string, breaks: string)

  predicate Blanks(w: string) {
    forall k :: 0 <= k < |w| ==> IsBlank(w[k])
  }

  predicate Breaks(w: string) {
    forall k :: 0 <= k < |w| ==> w[k] == '\n'
  }

  predicate WellFormed(l: LineSpec) {
    && Blanks(l.indent) && Blanks(l.trailing) && Breaks(l.breaks)
    && |l.word| == 3 && (forall k :: 0 <= k < 3 ==> !Char.IsSpace(l.word[k]))
  }

  function Text(l: LineSpec): string {
    l.indent + l.word + l.trailing + l.breaks
  }

  /** `''.join(lines)` */
  function Join(ls: seq<LineSpec>): string {
    if ls == [] then "" else Text(ls[0]) + Join(ls[1..])
  }

  /** The lines the generator draws: the words in order, line feeds after all
      but the last line. */
  predicate Generated(ls: seq<LineSpec>) {
    && |ls| == 5
    && ls[0].word == "aaa" && ls[1].word == "bbb" && ls[2].word == "ccc"
    && ls[3].word == "bbb" && ls[4].word == "ccc"
    && (forall k :: 0 <= k < 5 ==> WellFormed(ls[k]))
    && (forall k :: 0 <= k < 4 ==> ls[k].breaks != [])
    && ls[4].breaks == []
  }

  /** `get_col`: the position of the first character that is not white space. */
  function GetCol(line: string): nat {
    Span(line, 0, Char.IsSpace)
  }

  /** `cols = [get_col(l) for l in lines]` */
  function Cols(ls: seq<LineSpec>): seq<nat>
    requires |ls| == 5
  {
    [GetCol(Text(ls[0])), GetCol(Text(ls[1])), GetCol(Text(ls[2])), GetCol(Text(ls[3])), GetCol(Text(ls[4]))]
  }

  /** Where line `k` starts in the joined input: the lengths of the lines
      before it. */
  function Offset(ls: seq<LineSpec>, k: nat): nat
    requires k <= |ls|
  {
    if k == 0 then 0 else Offset(ls, k - 1) + |Text(ls[k - 1])|
  }

  /** Where the word of line `k` starts in the joined input. */
  function Start(ls: seq<LineSpec>, k: nat): nat
    requires k < |ls|
  {
    Offset(ls, k) + |ls[k].indent|
  }

  /** Where the trailing blanks of line `k` end. */
  function End(ls: seq<LineSpec>, k: nat): nat
    requires k < |ls|
  {
    Start(ls, k) + |ls[k].word| + |ls[k].trailing|
  }

  /** `s` holds line `k` at its offset. */
  ghost predicate LineLaid(s: string, ls: seq<LineSpec>, k: nat)
    requires k < |ls|
  {
    && Offset(ls, k) + |Text(ls[k])| <= |s|
    && forall j :: Offset(ls, k) <= j < Offset(ls, k) + |Text(ls[k])| ==>
         s[j] == Text(ls[k])[j - Offset(ls, k)]
  }

  /** `s` is the lines laid end to end. */
  ghost predicate Laid(s: string, ls: seq<LineSpec>) {
    && |s| == Offset(ls, |ls|)
    && forall k :: 0 <= k < |ls| ==> LineLaid(s, ls, k)
  }

  /** The test's column of a line is its indentation. */
  lemma GetColIsIndent(l: LineSpec)
    requires WellFormed(l)
    ensures GetCol(Text(l)) == |l.indent|
  {
    var t := Text(l);
    assert t[|l.indent|] == l.word[0];
    SpanThrough(t, 0, |l.indent|, Char.IsSpace);
  }

  // The joined input, line by line.

  /** Dropping the first line shifts every offset by its length. */
  lemma {:induction false} OffsetTail(ls: seq<LineSpec>, k: nat)
    requires 0 < |ls| && k < |ls|
    ensures Offset(ls, k + 1) == |Text(ls[0])| + Offset(ls[1..], k)
  {
    if k > 0 {
      OffsetTail(ls, k - 1);
    }
  }

  /** The first line sits at the front. */
  lemma LaidFirst(t: string, r: string, ls: seq<LineSpec>)
    requires ls != [] && t == Text(ls[0])
    ensures LineLaid(t + r, ls, 0)
  {
  }

  /** A line after the first keeps its place, shifted by the first line. */
  lemma LaidShifted(t: string, r: string, ls: seq<LineSpec>, k: nat)
    requires 0 < k < |ls| && LineLaid(r, ls[1..], k - 1)
    requires Offset(ls, k) == |t| + Offset(ls[1..], k - 1)
    ensures LineLaid(t + r, ls, k)
  {
    assert ls[1..][k - 1] == ls[k];
  }

  /** `''.join(lines)` lays the lines end to end. */
  lemma {:induction false} JoinLaid(ls: seq<LineSpec>)
    ensures Laid(Join(ls), ls)
  {
    if ls != [] {
      var t, tail := Text(ls[0]), ls[1..];
      JoinLaid(tail);
      assert Join(ls) == t + Join(tail);
      OffsetTail(ls, |tail|);
      forall k | 0 <= k < |ls|
        ensures LineLaid(t + Join(tail), ls, k)
      {
        if k == 0 {
          LaidFirst(t, Join(tail), ls);
        } else {
          OffsetTail(ls, k - 1);
          LaidShifted(t, Join(tail), ls, k);
        }
      }
    }
  }

  /** The characters of one line, piece by piece. */
  lemma TextChars(l: LineSpec)
    ensures var t := Text(l);
            var p := |l.indent|;
            var w := p + |l.word|;
            var q := w + |l.trailing|;
            && |t| == q + |l.breaks|
            && (forall i :: 0 <= i < p ==> t[i] == l.indent[i])
            && (forall i :: p <= i < w ==> t[i] == l.word[i - p])
            && (forall i :: w <= i < q ==> t[i] == l.trailing[i - w])
            && (forall i :: q <= i < |t| ==> t[i] == l.breaks[i - q])
  {
  }

  /** The characters of line `k` of the input, piece by piece. */
  lemma LineChars(s: string, ls: seq<LineSpec>, k: nat)
    requires Laid(s, ls) && k < |ls|
    ensures var l := ls[k];
            var a := Offset(ls, k);
            var p := a + |l.indent|;
            var w := p + |l.word|;
            var q := w + |l.trailing|;
            var e := q + |l.breaks|;
            && e <= |s|
            && (forall j :: a <= j < p ==> s[j] == l.indent[j - a])
            && (forall j :: p <= j < w ==> s[j] == l.word[j - p])
            && (forall j :: w <= j < q ==> s[j] == l.trailing[j - w])
            && (forall j :: q <= j < e ==> s[j] == l.breaks[j - q])
  {
    assert LineLaid(s, ls, k);
    TextChars(ls[k]);
  }

  /** A word at the start of a line, after its indentation and before its
      trailing blanks. */
  lemma WordPart(s: string, a: nat, l: LineSpec, q: nat)
    requires WellFormed(l)
    requires var p := a + |l.indent|;
             var w := p + |l.word|;
             && q == w + |l.trailing| && q <= |s|
             && (a == 0 || s[a - 1] == '\n')
             && (forall j :: a <= j < p ==> s[j] == l.indent[j - a])
             && (forall j :: p <= j < w ==> s[j] == l.word[j - p])
             && (forall j :: w <= j < q ==> s[j] == l.trailing[j - w])
             && (q == |s| || !IsBlank(s[q]))
    ensures WordAt(s, a + |l.indent|, l.word, |l.indent|, q)
  {
    var p := a + |l.indent|;
    assert s[p..p + 3] == l.word;
    ColumnThrough(s, a, p);
    SpanThrough(s, p + 3, q, IsBlank);
  }

  /** Line feeds, then the blanks that indent the next word. */
  lemma BreakPart(s: string, q: nat, l: LineSpec, ind2: string)
    requires Breaks(l.breaks) && l.breaks != [] && Blanks(ind2)
    requires var e := q + |l.breaks|;
             var n := e + |ind2|;
             && n < |s| && !Char.IsSpace(s[n])
             && (forall j :: q <= j < e ==> s[j] == l.breaks[j - q])
             && (forall j :: e <= j < n ==> s[j] == ind2[j - e])
    ensures BreakAt(s, q, q + |l.breaks| + |ind2|)
  {
    SpanThrough(s, q + 1, q + |l.breaks| + |ind2|, Char.IsSpace);
  }

  /** Line `k > 0` starts after a line feed. */
  lemma AfterBreak(s: string, ls: seq<LineSpec>, k: nat)
    requires Generated(ls) && Laid(s, ls) && 0 < k < 5
    ensures 0 < Offset(ls, k) <= |s|
    ensures s[Offset(ls, k) - 1] == '\n'
  {
    assert WellFormed(ls[k - 1]) && ls[k - 1].breaks != [];
    LineChars(s, ls, k - 1);
  }

  /** The word of line `k` and the blanks after it. */
  lemma WordOfLine(s: string, ls: seq<LineSpec>, k: nat)
    requires Generated(ls) && Laid(s, ls) && k < 5
    ensures k < 4 ==> End(ls, k) < |s| && s[End(ls, k)] == '\n'
    ensures k == 4 ==> End(ls, k) == |s|
    ensures WordAt(s, Start(ls, k), ls[k].word, |ls[k].indent|, End(ls, k))
  {
    var l := ls[k];
    assert WellFormed(l);
    LineChars(s, ls, k);
    if k > 0 {
      AfterBreak(s, ls, k);
    }
    if k < 4 {
      assert l.breaks != [];
    }
    WordPart(s, Offset(ls, k), l, End(ls, k));
  }

  /** The line feeds after line `k < 4` and the indentation of line `k + 1`. */
  lemma BreakAfterLine(s: string, ls: seq<LineSpec>, k: nat)
    requires Generated(ls) && Laid(s, ls) && k < 4
    ensures BreakAt(s, End(ls, k), Start(ls, k + 1))
  {
    var l, next := ls[k], ls[k + 1];
    assert WellFormed(l) && WellFormed(next) && l.breaks != [];
    LineChars(s, ls, k);
    LineChars(s, ls, k + 1);
    BreakPart(s, End(ls, k), l, next.indent);
  }

  /** Before the first word there is only its indentation. */
  lemma FirstLineAt(s: string, ls: seq<LineSpec>)
    requires Generated(ls) && Laid(s, ls)
    ensures Start(ls, 0) == Span(s, 0, Char.IsSpace)
  {
    assert WellFormed(ls[0]);
    LineChars(s, ls, 0);
    assert s[Start(ls, 0)] == ls[0].word[0];
    SpanThrough(s, 0, Start(ls, 0), Char.IsSpace);
  }

  /** Line `k < 4` in the terms of the table: its word, its column, and the
      break to the next line. */
  lemma LineShape(s: string, ls: seq<LineSpec>, k: nat, w: string, next: nat)
    requires Generated(ls) && Laid(s, ls) && k < 4 && ls[k].word == w && next == k + 1
    ensures WordAt(s, Start(ls, k), w, |ls[k].indent|, End(ls, k))
    ensures BreakAt(s, End(ls, k), Start(ls, next))
  {
    WordOfLine(s, ls, k);
    BreakAfterLine(s, ls, k);
  }

  /** The test's columns are the indentations of the lines. */
  lemma ColsAreIndents(ls: seq<LineSpec>)
    requires Generated(ls)
    ensures Cols(ls) == [|ls[0].indent|, |ls[1].indent|, |ls[2].indent|, |ls[3].indent|, |ls[4].indent|]
  {
    forall k | 0 <= k < 5
      ensures GetCol(Text(ls[k])) == |ls[k].indent|
    {
      GetColIsIndent(ls[k]);
    }
  }

  /** The five lines, each located on its own, make up the shape. */
  lemma ShapeOfLines(s: string, p0: nat, p1: nat, p2: nat, p3: nat, p4: nat,
                     q0: nat, q1: nat, q2: nat, q3: nat, q4: nat,
                     c0: nat, c1: nat, c2: nat, c3: nat, c4: nat)
    requires p0 == Span(s, 0, Char.IsSpace)
    requires WordAt(s, p0, "aaa", c0, q0) && BreakAt(s, q0, p1)
    requires WordAt(s, p1, "bbb", c1, q1) && BreakAt(s, q1, p2)
    requires WordAt(s, p2, "ccc", c2, q2) && BreakAt(s, q2, p3)
    requires WordAt(s, p3, "bbb", c3, q3) && BreakAt(s, q3, p4)
    requires WordAt(s, p4, "ccc", c4, q4) && q4 == |s|
    ensures Shape(s, [p0, p1, p2, p3, p4], [q0, q1, q2, q3, q4], [c0, c1, c2, c3, c4])
  {
  }

  /** Five generated lines laid end to end have the shape of the table, with
      the columns the test computes. */
  lemma LaidShape(s: string, ls: seq<LineSpec>)
    requires Generated(ls) && Laid(s, ls)
    ensures Shape(s, [Start(ls, 0), Start(ls, 1), Start(ls, 2), Start(ls, 3), Start(ls, 4)],
                  [End(ls, 0), End(ls, 1), End(ls, 2), End(ls, 3), End(ls, 4)], Cols(ls))
  {
    FirstLineAt(s, ls);
    LineShape(s, ls, 0, "aaa", 1);
    LineShape(s, ls, 1, "bbb", 2);
    LineShape(s, ls, 2, "ccc", 3);
    LineShape(s, ls, 3, "bbb", 4);
    WordOfLine(s, ls, 4);
    ShapeOfLines(s, Start(ls, 0), Start(ls, 1), Start(ls, 2), Start(ls, 3), Start(ls, 4),
                 End(ls, 0), End(ls, 1), End(ls, 2), End(ls, 3), End(ls, 4),
                 |ls[0].indent|, |ls[1].indent|, |ls[2].indent|, |ls[3].indent|, |ls[4].indent|);
    ColsAreIndents(ls);
  }

  /** `test_indent_block`: for every generated input and every pinned level,
      the parse fails exactly when the test's table says it must, and
      otherwise returns `('aaa', [('bbb', ['ccc']), ('bbb', ['ccc'])])` with
      the whole input consumed. */
  lemma FuzzedBlock(ls: seq<LineSpec>, level: nat)
    requires Generated(ls)
    ensures Program(level)(Join(ls), 0) ==
              if Rejected(Cols(ls), level) then Fail else Ok(Some(Expected()), |Join(ls)|)
  {
    var s := Join(ls);
    JoinLaid(ls);
    LaidShape(s, ls);
    DecisionTable(s, [Start(ls, 0), Start(ls, 1), Start(ls, 2), Start(ls, 3), Start(ls, 4)],
                  [End(ls, 0), End(ls, 1), End(ls, 2), End(ls, 3), End(ls, 4)], Cols(ls), level);
  }
}
