/** megaparsy/utils.py: `try_` and `from_maybe`. */
module Utils {
  import opened Parsy

  /** The value of `try_(p)`: the value of `p`, or the empty string `''` that
      the fallback `parsy.success('')` yields when `p` fails. */
  datatype Tried<+T> = Got(value: T) | Empty

  /** `try_(p)`, that is `p | parsy.success('')`. */
  function Try<T>(p: Parser<T>): Parser<Tried<T>> {
    Alt(Map(p, (v: T) => Got(v)), Succeed(Empty))
  }

  /** `from_maybe(default, maybe)`: `maybe` unless it is Python's `None`. The
      test is `is not None`, so a falsy column such as 0 is kept. */
  function FromMaybe<T>(default: T, maybe: Option<T>): (r: T)
    ensures maybe.Some? ==> r == maybe.value
    ensures maybe.None? ==> r == default
  {
    match maybe
    case Some(v) => v
    case None => default
  }

  /** `try_(p)` never fails: it is `p` on success and otherwise the empty string
      at the original cursor, so whatever follows sees the input untouched. */
  lemma TryOutcome<T>(p: Parser<T>, s: string, i: nat)
    ensures Try(p)(s, i).Ok?
    ensures p(s, i).Ok? ==> Try(p)(s, i) == Ok(Got(p(s, i).value), p(s, i).next)
    ensures p(s, i).Fail? ==> Try(p)(s, i) == Ok(Empty, i)
  {
  }

  lemma TrySound<T>(p: Parser<T>)
    requires Sound(p)
    ensures Sound(Try(p))
  {
    forall s: string, i: nat | i <= |s| && Try(p)(s, i).Ok?
      ensures i <= Try(p)(s, i).next <= |s|
    {
      TryOutcome(p, s, i);
    }
  }

  /** The example of tests/test_utils.py: `try_(string('let'))` on "lexical"
      yields '' without consuming, so `string('lexical')` then reads it all. */
  lemma TryLetLexical()
    ensures Try(Literal("let"))("lexical", 0) == Ok(Empty, 0)
    ensures Literal("lexical")("lexical", 0) == Ok("lexical", 7)
  {
    assert "lexical"[0..3] != "let" by { assert "lexical"[2] != "let"[2]; }
    TryOutcome(Literal("let"), "lexical", 0);
  }
}
