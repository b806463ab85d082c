/**
 * The agents of Agent.py and AgentAI.py: an agent's kinematic state, its
 * Euler step and out-of-window death, its three-ray view in the direction of
 * its speed, its controller that turns what it sees into acceleration
 * changes, and the update that ties them together.
 *
 * Each method is specified against a function on the agent's state as a
 * value (`Kinematics`), about which the lemmas state what the source promises.
 */
module Agents {
  import opened Common
  import opened Nets
  import opened Sensing
  import opened Decisions

  /** The state an agent carries besides its controller. */
  datatype Kinematics = Kinematics(
    position: Point,
    speedX: real,
    speedY: real,
    accelerationX: real,
    accelerationY: real,
    dead: bool)

  // ---------------------------------------------------------------------------
  // move

  /**
   * move: the speed gains the acceleration, the position gains the new
   * speed, and a position beyond width or height or below zero on either
   * axis kills the agent; nothing revives it.
   */
  function Moved(k: Kinematics, width: real, height: real): Kinematics {
    var sx := k.speedX + k.accelerationX;
    var sy := k.speedY + k.accelerationY;
    var p := Point(k.position.x + sx, k.position.y + sy);
    var outside := p.x > width || p.x < 0.0 || p.y > height || p.y < 0.0;
    k.(position := p, speedX := sx, speedY := sy, dead := k.dead || outside)
  }

  /**
   * A living agent survives a move exactly when it lands in the closed
   * window [0, width] x [0, height], so the border itself is safe; a dead
   * agent stays dead; the accelerations are untouched.
   */
  lemma MovedSurvival(k: Kinematics, width: real, height: real)
    ensures var r := Moved(k, width, height);
      && (k.dead ==> r.dead)
      && (!k.dead ==> (!r.dead <==> 0.0 <= r.position.x <= width && 0.0 <= r.position.y <= height))
      && r.accelerationX == k.accelerationX && r.accelerationY == k.accelerationY
  {
  }

  /**
   * Two moves under a constant acceleration a from speed v cover 2v + 3a on
   * each axis: the step integrates the speed after adding the acceleration.
   */
  lemma MovedTwice(k: Kinematics, width: real, height: real)
    ensures var r := Moved(Moved(k, width, height), width, height);
      && r.position.x == k.position.x + 2.0 * k.speedX + 3.0 * k.accelerationX
      && r.position.y == k.position.y + 2.0 * k.speedY + 3.0 * k.accelerationY
      && r.speedX == k.speedX + 2.0 * k.accelerationX
      && r.speedY == k.speedY + 2.0 * k.accelerationY
  {
  }

  // ---------------------------------------------------------------------------
  // calculate_raycasts

  /** The march direction of all three rays: forward along x when speed_x > 0, backward otherwise. */
  function Heading(speedX: real): (d: real)
    ensures d == 0.5 || d == -0.5
  {
    if speedX > 0.0 then 0.5 else -0.5
  }

  /** The gradient of the agent's speed, speed_y / speed_x. */
  function Slope(k: Kinematics): real
    requires k.speedX != 0.0
  {
    k.speedY / k.speedX
  }

  /** The right ray's gradient for a field of view at angle fov: tan(fov + pi / 8), negated once that angle passes pi / 2. */
  function RightGradient(fov: real, m: Maths): real {
    if fov + m.pi / 8.0 > m.pi / 2.0 then -m.tan(fov + m.pi / 8.0) else m.tan(fov + m.pi / 8.0)
  }

  /** The left ray's gradient: tan(fov - pi / 8), negated once that angle passes -pi / 2. */
  function LeftGradient(fov: real, m: Maths): real {
    if fov - m.pi / 8.0 < -(m.pi / 2.0) then -m.tan(fov - m.pi / 8.0) else m.tan(fov - m.pi / 8.0)
  }

  /**
   * The gradients of the left, direct and right rays: the field of view is
   * at angle atan(speed_y / speed_x), and the side rays are pi / 8 to each side of it.
   */
  function ViewGradients(k: Kinematics, m: Maths): (g: (real, real, real))
    requires k.speedX != 0.0
  {
    var fov := m.atan(Slope(k));
    (LeftGradient(fov, m), Slope(k), RightGradient(fov, m))
  }

  /** Where the left, direct and right rays stop, in that order. */
  function ViewHits(k: Kinematics, cs: seq<Collidable>, m: Maths): (hits: seq<Point>)
    requires k.speedX != 0.0
    ensures |hits| == 3
  {
    var g := ViewGradients(k, m);
    var d := Heading(k.speedX);
    [RayHit(k.position, g.0, cs, d), RayHit(k.position, g.1, cs, d), RayHit(k.position, g.2, cs, d)]
  }

  /** calculate_raycasts: how far the left, direct and right rays travel. */
  function Sight(k: Kinematics, cs: seq<Collidable>, m: Maths): (distances: seq<real>)
    requires k.speedX != 0.0
    ensures |distances| == 3
  {
    var hits := ViewHits(k, cs, m);
    [Distance(hits[0], k.position, m), Distance(hits[1], k.position, m), Distance(hits[2], k.position, m)]
  }

  /**
   * Every ray looks the way the agent moves along x: ahead of it when
   * speed_x > 0 and behind it otherwise; and each hit is inside an obstacle
   * or outside the open 700 x 700 box.
   */
  lemma SightAhead(k: Kinematics, cs: seq<Collidable>, m: Maths)
    requires k.speedX != 0.0
    ensures forall i :: 0 <= i < 3 ==> Stops(ViewHits(k, cs, m)[i], cs)
    ensures k.speedX > 0.0 ==> forall i :: 0 <= i < 3 ==> k.position.x <= ViewHits(k, cs, m)[i].x
    ensures k.speedX < 0.0 ==> forall i :: 0 <= i < 3 ==> ViewHits(k, cs, m)[i].x <= k.position.x
  {
    var g := ViewGradients(k, m);
    var d := Heading(k.speedX);
    var hits := ViewHits(k, cs, m);
    forall i | 0 <= i < 3
      ensures Stops(hits[i], cs)
      ensures k.speedX > 0.0 ==> k.position.x <= hits[i].x
      ensures k.speedX < 0.0 ==> hits[i].x <= k.position.x
    {
      var gi := if i == 0 then g.0 else if i == 1 then g.1 else g.2;
      assert hits[i] == RayHit(k.position, gi, cs, d);
      RayHitOnRay(k.position, gi, cs, d);
      RayHitStops(k.position, gi, cs, d);
    }
  }

  /** No ray distance is negative. */
  lemma SightNonNegative(k: Kinematics, cs: seq<Collidable>, m: Maths)
    requires k.speedX != 0.0 && SqrtNonNegative(m)
    ensures forall i :: 0 <= i < 3 ==> 0.0 <= Sight(k, cs, m)[i]
  {
    var hits := ViewHits(k, cs, m);
    DistanceNonNegative(hits[0], k.position, m);
    DistanceNonNegative(hits[1], k.position, m);
    DistanceNonNegative(hits[2], k.position, m);
  }

  /** The distance from a point to itself is zero under an exact square root. */
  lemma DistanceToSelf(p: Point, m: Maths)
    requires IsSquareRoot(m)
    ensures Distance(p, p, m) == 0.0
  {
    assert Square(p.x - p.x) + Square(p.y - p.y) == Square(0.0);
    SqrtOfSquare(0.0, m);
  }

  /**
   * An agent already inside an obstacle or outside the open box sees
   * nothing: every ray stops where it starts, at distance zero.
   */
  lemma SightBlind(k: Kinematics, cs: seq<Collidable>, m: Maths)
    requires k.speedX != 0.0 && IsSquareRoot(m) && Stops(k.position, cs)
    ensures Sight(k, cs, m) == [0.0, 0.0, 0.0]
  {
    var g := ViewGradients(k, m);
    var d := Heading(k.speedX);
    RayHitStops(k.position, g.0, cs, d);
    RayHitStops(k.position, g.1, cs, d);
    RayHitStops(k.position, g.2, cs, d);
    DistanceToSelf(k.position, m);
  }

  // ---------------------------------------------------------------------------
  // act and update

  /** The state after act has added the decided changes d to the accelerations. */
  function Accelerated(k: Kinematics, d: seq<real>): Kinematics
    requires 2 <= |d|
  {
    k.(accelerationX := k.accelerationX + d[0], accelerationY := k.accelerationY + d[1])
  }

  /** The shape an agent's network needs: at most five first-layer neurons for the five inputs, and two outputs. */
  predicate Fed(W: Weights) {
    0 < |W| && |W[0]| <= 5 && 2 <= |W[|W| - 1]|
  }

  /**
   * update of a living agent whose speed_x is not zero: it looks, acts on
   * what it sees, moves, and dies if it lands strictly inside an obstacle.
   */
  function Updated(k: Kinematics, W: Weights, cs: seq<Collidable>, goal: Point,
                   width: real, height: real, m: Maths): Kinematics
    requires k.speedX != 0.0 && Fits(W) && Fed(W) && ExpNonNegative(m)
  {
    var distances := Sight(k, cs, m);
    var acted := Accelerated(k, Decision(W, distances, k.position, goal, m));
    var moved := Moved(acted, width, height);
    if CheckCollisions(moved.position.x, moved.position.y, cs) then moved.(dead := true) else moved
  }

  /**
   * After an update the agent is dead exactly when it left the closed window
   * or landed strictly inside an obstacle; each acceleration has changed by
   * more than -0.5 and at most 0.5.
   */
  lemma UpdatedOutcome(k: Kinematics, W: Weights, cs: seq<Collidable>, goal: Point,
                       width: real, height: real, m: Maths)
    requires !k.dead && k.speedX != 0.0 && Fits(W) && Fed(W) && ExpNonNegative(m)
    ensures var r := Updated(k, W, cs, goal, width, height, m);
      && (r.dead <==> !(0.0 <= r.position.x <= width && 0.0 <= r.position.y <= height)
                      || CheckCollisions(r.position.x, r.position.y, cs))
      && -0.5 < r.accelerationX - k.accelerationX <= 0.5
      && -0.5 < r.accelerationY - k.accelerationY <= 0.5
  {
    var distances := Sight(k, cs, m);
    DecisionBounded(W, distances, k.position, goal, m);
  }

  /**
   * draw, which update calls after moving, divides by acceleration_x and by
   * speed_x: it raises unless both are non-zero.
   */
  predicate Drawable(k: Kinematics) {
    k.accelerationX != 0.0 && k.speedX != 0.0
  }

  // ---------------------------------------------------------------------------
  // The objects

  /**
   * The frame of Agent.Valid: an agent whose controller, network and
   * neuron weights and connections are untouched stays valid.
   */
  twostate lemma StillValid(a: Agent)
    requires old(a.Valid())
    requires unchanged(a.ai, a.ai.net)
    requires forall n | n in old(a.ai.net.Repr) :: unchanged(n`weights, n`connected)
    ensures a.Valid()
  {
  }

  class Agent {
    var position: Point
    var speedX: real
    var speedY: real
    var accelerationX: real
    var accelerationY: real
    var dead: bool
    const ai: AgentAI

    /** The agent's state as a value. */
    function State(): Kinematics
      reads this
    {
      Kinematics(position, speedX, speedY, accelerationX, accelerationY, dead)
    }

    /** The controller points back at this agent and drives a well-formed network of the shape update needs. */
    ghost predicate Valid()
      reads ai, ai.net, ai.net.Repr`weights, ai.net.Repr`connected
    {
      ai.handled == this && ai.net.Valid() && Fed(ai.net.W)
    }

    /** A living agent with the given state, controlled by net. */
    constructor (startingPos: Point, speedX: real, speedY: real, accelerationX: real, accelerationY: real,
                 net: NeuralNetwork)
      ensures State() == Kinematics(startingPos, speedX, speedY, accelerationX, accelerationY, false)
      ensures fresh(ai) && ai.net == net && ai.handled == this
    {
      position := startingPos;
      this.speedX := speedX;
      this.speedY := speedY;
      this.accelerationX := accelerationX;
      this.accelerationY := accelerationY;
      dead := false;
      ai := new AgentAI(null, net);
      new;
      ai.handled := this;
    }

    /** move: one Euler step, then the window test. */
    method Move(width: real, height: real)
      modifies `position, `speedX, `speedY, `dead
      ensures State() == Moved(old(State()), width, height)
    {
      speedX := speedX + accelerationX;
      speedY := speedY + accelerationY;
      position := position.(x := position.x + speedX);
      position := position.(y := position.y + speedY);
      if position.x > width || position.x < 0.0 {
        dead := true;
      }
      if position.y > height || position.y < 0.0 {
        dead := true;
      }
    }

    /** calculate_raycasts: the lengths of the left, direct and right rays. */
    method CalculateRaycasts(cs: seq<Collidable>, m: Maths) returns (distances: seq<real>)
      requires speedX != 0.0
      ensures distances == Sight(State(), cs, m)
    {
      var slope := Slope(State());
      var fovAngle := m.atan(slope);
      var rightGradient := m.tan(fovAngle + m.pi / 8.0);
      if fovAngle + m.pi / 8.0 > m.pi / 2.0 {
        rightGradient := rightGradient * -1.0;
      }
      assert rightGradient == RightGradient(fovAngle, m);
      var leftGradient := m.tan(fovAngle - m.pi / 8.0);
      if fovAngle - m.pi / 8.0 < -(m.pi / 2.0) {
        leftGradient := leftGradient * -1.0;
      }
      assert leftGradient == LeftGradient(fovAngle, m);
      var directHit, leftHit, rightHit;
      if speedX > 0.0 {
        directHit := GetRaycastHit(position, slope, cs, 0.5, Edge, Edge);
        leftHit := GetRaycastHit(position, leftGradient, cs, 0.5, Edge, Edge);
        rightHit := GetRaycastHit(position, rightGradient, cs, 0.5, Edge, Edge);
      } else {
        directHit := GetRaycastHit(position, slope, cs, -0.5, Edge, Edge);
        leftHit := GetRaycastHit(position, leftGradient, cs, -0.5, Edge, Edge);
        rightHit := GetRaycastHit(position, rightGradient, cs, -0.5, Edge, Edge);
      }
      assert [leftHit, directHit, rightHit] == ViewHits(State(), cs, m);
      distances := [Distance(leftHit, position, m), Distance(directHit, position, m),
                    Distance(rightHit, position, m)];
    }

    /**
     * update: a dead agent is left alone. A living one with speed_x == 0
     * raises at once (division by zero while aiming its rays). Otherwise it
     * looks, acts, moves and checks for a collision, and then raises if
     * drawing it divides by zero.
     */
    method Update(cs: seq<Collidable>, goal: Point, width: real, height: real, m: Maths)
      returns (raised: bool)
      requires Valid() && ExpNonNegative(m)
      modifies `position, `speedX, `speedY, `accelerationX, `accelerationY, `dead, ai.net.Repr`input
      ensures Valid()
      ensures old(dead) ==> !raised && State() == old(State())
      ensures !old(dead) && old(speedX) == 0.0 ==> raised && State() == old(State())
      ensures !old(dead) && old(speedX) != 0.0 ==>
        && State() == Updated(old(State()), ai.net.W, cs, goal, width, height, m)
        && (raised <==> !Drawable(State()))
    {
      raised := false;
      label start:
      if !dead {
        if speedX == 0.0 {
          raised := true;
          return;
        }
        var distances := CalculateRaycasts(cs, m);
        ai.Act(distances, goal, m);
        Move(width, height);
        if CheckCollisions(position.x, position.y, cs) {
          dead := true;
        }
        raised := !Drawable(State());
        StillValid@start(this);
      }
    }
  }

  class AgentAI {
    /** The agent this controller steers; set right after that agent is built. */
    var handled: Agent?
    const net: NeuralNetwork

    constructor (parent: Agent?, net: NeuralNetwork)
      ensures handled == parent && this.net == net
    {
      handled := parent;
      this.net := net;
    }

    /**
     * act: adds the decided changes to the handled agent's accelerations;
     * only the accelerations and the network's accumulators change.
     */
    method Act(distances: seq<real>, goal: Point, m: Maths)
      requires handled != null && net.Valid() && Fed(net.W)
      requires |net.layers[0]| <= |distances| + 2 && ExpNonNegative(m)
      modifies handled`accelerationX, handled`accelerationY, net.Repr`input
      ensures handled.State() == Accelerated(old(handled.State()),
                                             Decision(net.W, distances, old(handled.position), goal, m))
    {
      var agent := handled;
      var inputs := Inputs(distances, agent.position, goal, m);
      var outputs := net.Activate(Sigmoid(inputs, m));
      var result := Adjustments(outputs, m);
      agent.accelerationX := agent.accelerationX + result[0];
      agent.accelerationY := agent.accelerationY + result[1];
    }
  }
}
