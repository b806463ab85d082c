/**
 * The value-level part of AgentAI.py: the logistic squashing `sigmoid` with
 * its overflow fallback, the five network inputs an agent builds from its
 * ray distances and its offset to the goal, and the acceleration change the
 * network's squashed outputs produce.
 */
module Decisions {
  import opened Common
  import opened Nets

  /** Some element x of data makes math.pow(math.e, -x) overflow. */
  predicate AnyOverflow(data: seq<real>, m: Maths) {
    exists x :: x in data && m.overflows(-x)
  }

  /** 1 / (1 + e^-x), with e^-x supplied by the caller's exp. */
  function Logistic(x: real, m: Maths): real
    requires 0.0 <= m.exp(-x)
  {
    1.0 / (1.0 + m.exp(-x))
  }

  /**
   * sigmoid: the logistic function of every element; if computing any of
   * them overflows, the exception handler answers 1 for every element.
   */
  function Sigmoid(data: seq<real>, m: Maths): (out: seq<real>)
    requires ExpNonNegative(m)
    ensures |out| == |data|
  {
    if AnyOverflow(data, m) then seq(|data|, _ => 1.0)
    else seq(|data|, i requires 0 <= i < |data| => Logistic(data[i], m))
  }

  /** 1 / (1 + e) lies in (0, 1] for every e >= 0. */
  lemma ReciprocalBounds(e: real)
    requires 0.0 <= e
    ensures 0.0 < 1.0 / (1.0 + e) <= 1.0
  {
    var r := 1.0 / (1.0 + e);
    assert r * (1.0 + e) == 1.0;
  }

  /**
   * Both paths of sigmoid keep the length, every output lies in (0, 1], and
   * an overflow anywhere turns every output into 1.
   */
  lemma SigmoidBounds(data: seq<real>, m: Maths)
    requires ExpNonNegative(m)
    ensures |Sigmoid(data, m)| == |data|
    ensures forall i :: 0 <= i < |data| ==> 0.0 < Sigmoid(data, m)[i] <= 1.0
    ensures AnyOverflow(data, m) ==> forall i :: 0 <= i < |data| ==> Sigmoid(data, m)[i] == 1.0
  {
    if !AnyOverflow(data, m) {
      forall i | 0 <= i < |data|
        ensures 0.0 < Sigmoid(data, m)[i] <= 1.0
      {
        ReciprocalBounds(m.exp(-data[i]));
      }
    }
  }

  /** sqrt(pow(d, 2)) is |d| when sqrt is the exact square root. */
  lemma SqrtOfSquare(d: real, m: Maths)
    requires IsSquareRoot(m)
    ensures m.sqrt(Square(d)) == Abs(d)
  {
    var s := m.sqrt(Square(d));
    var a := Abs(d);
    assert Square(d) == a * a;
    assert 0.0 <= a * a;
    assert 0.0 <= s && s * s == a * a;
    assert (s - a) * (s + a) == 0.0;
    if 0.0 < s + a {
      assert s - a == ((s - a) * (s + a)) / (s + a);
    }
  }

  /**
   * The inputs act feeds the network: the ray distances followed by
   * sqrt((goal.x - x)^2) and sqrt((goal.y - y)^2).
   */
  function Inputs(distances: seq<real>, position: Point, goal: Point, m: Maths): (inputs: seq<real>)
    ensures |inputs| == |distances| + 2
  {
    distances + [m.sqrt(Square(goal.x - position.x)), m.sqrt(Square(goal.y - position.y))]
  }

  /** The two extra inputs are the absolute x and y gaps to the goal. */
  lemma InputsAreGaps(distances: seq<real>, position: Point, goal: Point, m: Maths)
    requires IsSquareRoot(m)
    ensures Inputs(distances, position, goal, m) == distances + [Abs(goal.x - position.x), Abs(goal.y - position.y)]
  {
    SqrtOfSquare(goal.x - position.x, m);
    SqrtOfSquare(goal.y - position.y, m);
  }

  /** The acceleration changes act derives from the network's outputs: sigmoid, then minus 0.5. */
  function Adjustments(outputs: seq<real>, m: Maths): (result: seq<real>)
    requires ExpNonNegative(m)
    ensures |result| == |outputs|
  {
    var squashed := Sigmoid(outputs, m);
    seq(|outputs|, i requires 0 <= i < |outputs| => squashed[i] - 0.5)
  }

  /** Every adjustment lies in (-0.5, 0.5]. */
  lemma AdjustmentsBounded(outputs: seq<real>, m: Maths)
    requires ExpNonNegative(m)
    ensures forall i :: 0 <= i < |outputs| ==> -0.5 < Adjustments(outputs, m)[i] <= 0.5
  {
    SigmoidBounds(outputs, m);
  }

  /**
   * The acceleration changes act computes from a network with weights W: the
   * inputs are squashed, fed through the network, and its outputs squashed
   * again and shifted down by 0.5.
   */
  function Decision(W: Weights, distances: seq<real>, position: Point, goal: Point, m: Maths): (d: seq<real>)
    requires Fits(W) && |W[0]| <= |distances| + 2 && ExpNonNegative(m)
    ensures |d| == |W[|W| - 1]|
  {
    var squashed := Sigmoid(Inputs(distances, position, goal, m), m);
    Adjustments(Forward(W, squashed), m)
  }

  /** Whatever the network computes, each acceleration change lies in (-0.5, 0.5]. */
  lemma DecisionBounded(W: Weights, distances: seq<real>, position: Point, goal: Point, m: Maths)
    requires Fits(W) && |W[0]| <= |distances| + 2 && ExpNonNegative(m)
    ensures forall i :: 0 <= i < |W[|W| - 1]| ==> -0.5 < Decision(W, distances, position, goal, m)[i] <= 0.5
  {
    var squashed := Sigmoid(Inputs(distances, position, goal, m), m);
    AdjustmentsBounded(Forward(W, squashed), m);
  }
}
