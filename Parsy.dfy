/** The part of the parsy library that the megaparsy lexer is built on.

    A parser is a pure function from the input text and a cursor to a result.
    parsy alternatives always backtrack, so a failure carries no position and
    consumes nothing; a success carries its value and the cursor after it.
    Parsers only ever run at positions inside the input; the primitive parsers
    below fail outright on a cursor past the end so that every parser value is
    total. */
module Parsy {

  datatype Option<+T> = None | Some(value: T)

  datatype Result<+T> = Ok(value: T, next: nat) | Fail

  type Parser<T> = (string, nat) -> Result<T>

  /** A parser that never moves the cursor backwards nor past the input's end. */
  ghost predicate Sound<T>(p: Parser<T>) {
    forall s: string, i: nat :: i <= |s| && p(s, i).Ok? ==> i <= p(s, i).next <= |s|
  }

  /** A parser whose every success consumes at least one character. */
  ghost predicate Advancing<T>(p: Parser<T>) {
    forall s: string, i: nat :: i <= |s| && p(s, i).Ok? ==> i < p(s, i).next <= |s|
  }

  /** The column reported by `parsy.line_info`: the number of characters since
      the last line feed before `i`. Every character, a tab or a carriage return
      included, counts as one column. */
  function Column(s: string, i: nat): (c: nat)
    requires i <= |s|
    ensures c <= i
  {
    if i == 0 || s[i - 1] == '\n' then 0 else Column(s, i - 1) + 1
  }

  /** The column is the distance back to the last line feed, or to the start
      of the input when there is none. */
  lemma {:induction false} ColumnCountsLine(s: string, i: nat)
    requires i <= |s|
    ensures var c := Column(s, i);
            && (c < i ==> s[i - 1 - c] == '\n')
            && (forall k :: i - c <= k < i ==> s[k] != '\n')
  {
    if i > 0 && s[i - 1] != '\n' {
      ColumnCountsLine(s, i - 1);
    }
  }

  /** The end of the longest run of characters of class `cls` starting at `i`. */
  function Span(s: string, i: nat, cls: char -> bool): (j: nat)
    requires i <= |s|
    ensures i <= j <= |s|
    decreases |s| - i
  {
    if i < |s| && cls(s[i]) then Span(s, i + 1, cls) else i
  }

  /** The run is of class `cls` throughout and cannot be extended. */
  lemma {:induction false} SpanMaximal(s: string, i: nat, cls: char -> bool)
    requires i <= |s|
    ensures var j := Span(s, i, cls);
            && (forall k :: i <= k < j ==> cls(s[k]))
            && (j == |s| || !cls(s[j]))
    decreases |s| - i
  {
    if i < |s| && cls(s[i]) {
      SpanMaximal(s, i + 1, cls);
    }
  }

  /** A stretch of class `cls` that cannot be extended is the run `Span` finds. */
  lemma {:induction false} SpanThrough(s: string, i: nat, j: nat, cls: char -> bool)
    requires i <= j <= |s|
    requires forall k :: i <= k < j ==> cls(s[k])
    requires j == |s| || !cls(s[j])
    ensures Span(s, i, cls) == j
    decreases j - i
  {
    if i < j {
      SpanThrough(s, i + 1, j, cls);
    }
  }

  /** After a line feed (or the start of the input), a stretch without line
      feeds ends in the column of its length. */
  lemma {:induction false} ColumnThrough(s: string, i: nat, j: nat)
    requires i <= j <= |s|
    requires i == 0 || s[i - 1] == '\n'
    requires forall k :: i <= k < j ==> s[k] != '\n'
    ensures Column(s, j) == j - i
    decreases j - i
  {
    if i < j {
      ColumnThrough(s, i, j - 1);
    }
  }

  /** `parsy.success(v)` */
  function Succeed<T>(v: T): Parser<T> {
    (s: string, i: nat) => Ok(v, i)
  }

  /** `parsy.fail(message)`; the message only feeds error reports. */
  function Failure<T>(): Parser<T> {
    (s: string, i: nat) => Fail
  }

  /** `parsy.string(w)` */
  function Literal(w: string): Parser<string> {
    (s: string, i: nat) =>
      if i + |w| <= |s| && s[i..i + |w|] == w then Ok(w, i + |w|) else Fail
  }

  /** `parsy.regex` of one character class, repeated greedily: `[cls]*` when
      `plus` is false and `[cls]+` when it is true. */
  function Regex(cls: char -> bool, plus: bool): Parser<string> {
    (s: string, i: nat) =>
      if |s| < i then Fail
      else
        var j := Span(s, i, cls);
        if plus && j == i then Fail else Ok(s[i..j], j)
  }

  /** `parsy.eof`: succeeds, consuming nothing, at the end of the input. */
  function Eof(): Parser<()> {
    (s: string, i: nat) => if |s| <= i then Ok((), i) else Fail
  }

  /** `p | q`: ordered choice; `q` runs from the original cursor. */
  function Alt<T>(p: Parser<T>, q: Parser<T>): Parser<T> {
    (s: string, i: nat) => match p(s, i) case Ok(v, j) => Ok(v, j) case Fail => q(s, i)
  }

  /** `p >> q`: run both, keep the value of `q`. */
  function Then<T, U>(p: Parser<T>, q: Parser<U>): Parser<U> {
    (s: string, i: nat) => match p(s, i) case Fail => Fail case Ok(_, j) => q(s, j)
  }

  /** `p << q`, also `p.skip(q)`: run both, keep the value of `p`. */
  function Skip<T, U>(p: Parser<T>, q: Parser<U>): Parser<T> {
    (s: string, i: nat) =>
      match p(s, i)
      case Fail => Fail
      case Ok(v, j) => match q(s, j) case Fail => Fail case Ok(_, k) => Ok(v, k)
  }

  /** `p.optional()`: never fails; `None` at the original cursor when `p` fails. */
  function Optional<T>(p: Parser<T>): Parser<Option<T>> {
    (s: string, i: nat) => match p(s, i) case Ok(v, j) => Ok(Some(v), j) case Fail => Ok(None, i)
  }

  /** `p.map(f)` */
  function Map<T, U>(p: Parser<T>, f: T -> U): Parser<U> {
    (s: string, i: nat) => match p(s, i) case Ok(v, j) => Ok(f(v), j) case Fail => Fail
  }

  /** `p.result(v)` */
  function As<T, U>(p: Parser<T>, v: U): Parser<U> {
    (s: string, i: nat) => match p(s, i) case Ok(_, j) => Ok(v, j) case Fail => Fail
  }

  /** `p + q` on parsers of text: both in sequence, their texts joined. */
  function Plus(p: Parser<string>, q: Parser<string>): Parser<string> {
    (s: string, i: nat) =>
      match p(s, i)
      case Fail => Fail
      case Ok(v, j) => match q(s, j) case Fail => Fail case Ok(w, k) => Ok(v + w, k)
  }

  /** `p.parse(s)`: run `p` from the start and demand the end of the input
      after it; `Fail` stands for the `ParseError` raised otherwise. */
  function Parse<T>(p: Parser<T>, s: string): Result<T> {
    Skip(p, Eof())(s, 0)
  }

  /** The loop of `p.many()`: apply `p` until it fails, collecting its values. */
  function ManyFrom<T>(p: Parser<T>, s: string, i: nat): (r: Result<seq<T>>)
    requires Advancing(p) && i <= |s|
    ensures r.Ok? && i <= r.next <= |s|
    ensures r.value == [] <==> p(s, i).Fail?
    decreases |s| - i
  {
    match p(s, i)
    case Fail => Ok([], i)
    case Ok(v, j) =>
      var rest := ManyFrom(p, s, j);
      Ok([v] + rest.value, rest.next)
  }

  /** `many` collects the values of successive successes of `p`, each run from
      where the previous one stopped, and ends where `p` first fails. */
  lemma {:induction false} ManyCollects<T>(p: Parser<T>, s: string, ps: seq<nat>, vs: seq<T>)
    requires Advancing(p)
    requires |ps| == |vs| + 1 && ps[0] <= |s|
    requires forall k :: 0 <= k < |vs| ==> p(s, ps[k]) == Ok(vs[k], ps[k + 1])
    requires p(s, ps[|vs|]).Fail?
    ensures ManyFrom(p, s, ps[0]) == Ok(vs, ps[|vs|])
    decreases |vs|
  {
    if |vs| > 0 {
      ManyCollects(p, s, ps[1..], vs[1..]);
      assert [vs[0]] + vs[1..] == vs;
    }
  }

  /** `p.many()`; it only terminates when every success of `p` consumes input. */
  function Many<T>(p: Parser<T>): Parser<seq<T>>
    requires Advancing(p)
  {
    (s: string, i: nat) => if |s| < i then Fail else ManyFrom(p, s, i)
  }

  // Every combinator keeps parsers sound.

  lemma LiteralSound(w: string)
    ensures Sound(Literal(w))
    ensures |w| > 0 ==> Advancing(Literal(w))
  {
  }

  lemma RegexSound(cls: char -> bool, plus: bool)
    ensures Sound(Regex(cls, plus))
    ensures plus ==> Advancing(Regex(cls, plus))
  {
  }

  lemma AltSound<T>(p: Parser<T>, q: Parser<T>)
    requires Sound(p) && Sound(q)
    ensures Sound(Alt(p, q))
  {
  }

  lemma ThenSound<T, U>(p: Parser<T>, q: Parser<U>)
    requires Sound(p) && Sound(q)
    ensures Sound(Then(p, q))
    ensures Advancing(p) ==> Advancing(Then(p, q))
  {
    forall s: string, i: nat | i <= |s| && Then(p, q)(s, i).Ok?
      ensures i <= Then(p, q)(s, i).next <= |s|
      ensures Advancing(p) ==> i < Then(p, q)(s, i).next
    {
      var j := p(s, i).next;
      assert q(s, j).Ok?;
    }
  }

  lemma SkipSound<T, U>(p: Parser<T>, q: Parser<U>)
    requires Sound(p) && Sound(q)
    ensures Sound(Skip(p, q))
    ensures Advancing(p) ==> Advancing(Skip(p, q))
  {
    forall s: string, i: nat | i <= |s| && Skip(p, q)(s, i).Ok?
      ensures i <= Skip(p, q)(s, i).next <= |s|
      ensures Advancing(p) ==> i < Skip(p, q)(s, i).next
    {
      var j := p(s, i).next;
      assert q(s, j).Ok?;
    }
  }

  lemma OptionalSound<T>(p: Parser<T>)
    requires Sound(p)
    ensures Sound(Optional(p))
  {
  }

  lemma MapSound<T, U>(p: Parser<T>, f: T -> U)
    ensures Sound(p) ==> Sound(Map(p, f))
    ensures Advancing(p) ==> Advancing(Map(p, f))
  {
  }

  lemma AsSound<T, U>(p: Parser<T>, v: U)
    ensures Sound(p) ==> Sound(As(p, v))
    ensures Advancing(p) ==> Advancing(As(p, v))
  {
  }
}
