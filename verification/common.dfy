/**
 * Values shared by the whole simulation: plane points, the numeric library
 * the source calls into (kept abstract), and Python's list slicing.
 */
module Common {

  /** A point of the field; the graphics library's Point carries just x and y. */
  datatype Point = Point(x: real, y: real)

  /**
   * The transcendental functions of Python's `math` module that the core
   * calls. They are not computed here: a caller supplies them, and each
   * operation asks only for the facts it needs (see SqrtNonNegative,
   * ExpNonNegative and IsSquareRoot).
   *   sqrt       math.sqrt
   *   atan, tan  math.atan, math.tan
   *   exp        y |-> math.pow(math.e, y)
   *   overflows  whether math.pow(math.e, y) raises OverflowError
   *   pi         math.pi
   */
  datatype Maths = Maths(
    sqrt: real -> real,
    atan: real -> real,
    tan: real -> real,
    exp: real -> real,
    overflows: real -> bool,
    pi: real)

  /** math.sqrt never returns a negative number on its domain. */
  ghost predicate SqrtNonNegative(m: Maths) {
    forall v :: 0.0 <= v ==> 0.0 <= m.sqrt(v)
  }

  /** math.pow(math.e, y) is never negative (it is 0.0 on underflow). */
  ghost predicate ExpNonNegative(m: Maths) {
    forall y :: 0.0 <= m.exp(y)
  }

  /** The supplied sqrt is the exact square root on non-negative reals. */
  ghost predicate IsSquareRoot(m: Maths) {
    forall v :: 0.0 <= v ==> 0.0 <= m.sqrt(v) && m.sqrt(v) * m.sqrt(v) == v
  }

  /** math.pow(v, 2). */
  function Square(v: real): real {
    v * v
  }

  function Abs(v: real): real {
    if v < 0.0 then -v else v
  }

  /** The length of Python's `s[0:stop]` for a list of length n. */
  function SliceLength(n: nat, stop: int): (k: nat)
    ensures k <= n
  {
    if 0 <= stop then (if stop < n then stop else n)
    else (if n + stop < 0 then 0 else n + stop)
  }

  /**
   * Python's `s[0:stop]`: a stop past the end takes the whole list, and a
   * negative stop counts from the end.
   */
  function SliceTo<T>(s: seq<T>, stop: int): (r: seq<T>)
    ensures |r| == SliceLength(|s|, stop)
    ensures r <= s
  {
    s[..SliceLength(|s|, stop)]
  }
}
