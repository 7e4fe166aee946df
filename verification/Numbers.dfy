/**
 The range checks of `_number` in scripts/lib/inference_metrics.py, on exact numbers: a value is
 non-negative and bounded, and a whole value must be one a double still counts exactly.
 Text syntax and rounding to a double are not modelled.
 */
module Numbers {

  const MAX_SAFE_COUNT := 9007199254740991
  const LARGEST_NUMBER := 1e300
  const LATEST_TIME := 1e12

  predicate Whole(x: real) {
    x == x.Floor as real
  }

  predicate LegalWithin(x: real, maximum: real) {
    0.0 <= x <= maximum && (Whole(x) ==> x <= MAX_SAFE_COUNT as real)
  }

  predicate LegalNumber(x: real) {
    LegalWithin(x, LARGEST_NUMBER)
  }

  predicate LegalCount(n: int) {
    0 <= n <= MAX_SAFE_COUNT
  }

  function Max(x: real, y: real): real {
    if x < y then y else x
  }
}
