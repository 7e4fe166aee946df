/** What several modules share: an optional value, a value-or-reason result, and small helpers. */
module Prelude {

  datatype Option<+T> = None | Some(value: T)

  datatype Result<+T, +E> = Ok(value: T) | Err(reason: E)

  predicate IsDigit(c: char) {
    '0' <= c <= '9'
  }

  function DigitValue(c: char): nat
    requires IsDigit(c)
  {
    c as int - '0' as int
  }

  /** The number a text of digits denotes. */
  function DecimalValue(s: string): nat
    requires forall i | 0 <= i < |s| :: IsDigit(s[i])
  {
    if s == "" then 0 else 10 * DecimalValue(s[..|s| - 1]) + DigitValue(s[|s| - 1])
  }

  /** While not everything is taken, something is left to take. */
  lemma SomeLeft<T>(all: set<T>, done: set<T>)
    requires done <= all
    ensures done != all ==> all - done != {}
  {
    assert all == done + (all - done);
  }

  /** Taking one more element leaves fewer to take. */
  lemma OneLess<T>(all: set<T>, done: set<T>, x: T)
    requires x in all - done
    ensures |all - (done + {x})| < |all - done|
  {
    assert all - done == all - (done + {x}) + {x};
  }

}
