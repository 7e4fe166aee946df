/** Writing a set as a list, in ascending order of a value that tells its elements apart. */
module Sorting {

  ghost predicate LeastOf<T(!new)>(x: T, s: set<T>, value: T -> real) {
    x in s && forall y | y in s :: value(x) <= value(y)
  }

  lemma {:induction false} LeastExists<T(!new)>(s: set<T>, value: T -> real) returns (least: T)
    requires s != {}
    ensures LeastOf(least, s, value)
    decreases |s|
  {
    var x :| x in s;
    var rest := s - {x};
    least := x;
    if rest != {} {
      var z := LeastExists(rest, value);
      least := if value(x) <= value(z) then x else z;
    }
    forall y | y in s ensures value(least) <= value(y) {
      assert y == x || y in rest;
    }
  }

  predicate IncreasingBy<T(!new)>(r: seq<T>, value: T -> real) {
    forall i, j | 0 <= i < j < |r| :: value(r[i]) < value(r[j])
  }

  ghost predicate AllBefore<T(!new)>(r: seq<T>, left: set<T>, value: T -> real) {
    forall i, y | 0 <= i < |r| && y in left :: value(r[i]) < value(y)
  }

  ghost predicate TellsApart<T(!new)>(s: set<T>, value: T -> real) {
    forall x, y | x in s && y in s && value(x) == value(y) :: x == y
  }

  lemma TakeLeast<T(!new)>(r: seq<T>, left: set<T>, least: T, value: T -> real)
    requires IncreasingBy(r, value) && AllBefore(r, left, value)
    requires LeastOf(least, left, value) && TellsApart(left, value)
    ensures IncreasingBy(r + [least], value) && AllBefore(r + [least], left - {least}, value)
  {
    forall y | y in left - {least} ensures value(least) < value(y) {
      assert value(least) <= value(y) && value(least) != value(y);
    }
  }

  method Sort<T(==,!new)>(s: set<T>, value: T -> real) returns (r: seq<T>)
    requires TellsApart(s, value)
    ensures IncreasingBy(r, value)
    ensures forall x :: x in r <==> x in s
  {
    r := [];
    var left := s;
    while left != {}
      invariant left <= s && forall x :: x in s <==> x in r || x in left
      invariant IncreasingBy(r, value) && AllBefore(r, left, value)
      decreases |left|
    {
      ghost var witnessed := LeastExists(left, value);
      var least :| least in left && forall y | y in left :: value(least) <= value(y);
      TakeLeast(r, left, least, value);
      assert forall x :: x in r + [least] <==> x in r || x == least;
      r := r + [least];
      left := left - {least};
    }
  }
}
