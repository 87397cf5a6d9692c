/**
 * The per-frame simulation of the two-square bouncing demo, as values.
 *
 * Every C float becomes a `real`, so arithmetic is exact. The demo's state is
 * two bodies (centre and per-frame velocity), the shared half-size of the
 * squares (the global SHAPE_SIZE) and the global collision counter. Each
 * operation of main.c is a function from the old state to the new one; the
 * class in module Squares performs the same updates in place and is proved
 * against these functions.
 */
module Physics {

  /** One square: centre (x, y) and velocity (vx, vy), added once per frame. */
  datatype Body = Body(x: real, y: real, vx: real, vy: real)

  /** Everything the frame step reads or writes. */
  datatype State = State(first: Body, second: Body, shapeSize: real, collisions: nat)

  /** The two call sites of update_position: shape 1 or shape 2. */
  datatype Which = First | Second

  /** The half-size SHAPE_SIZE starts with, before main overrides it. */
  const DefaultShapeSize: real := 0.2

  /** The half-size main sets once the squares have been placed. */
  const DemoShapeSize: real := 0.1

  /** The coefficient main passes to init_speeds. */
  const DemoSpeedCoef: real := 0.5

  function Abs(v: real): real
  {
    if v < 0.0 then -v else v
  }

  /** A draw `rand() / RAND_MAX`: a real in [0, 1]. */
  predicate IsDraw(r: real)
  {
    0.0 <= r <= 1.0
  }

  // ---------------------------------------------------------------------------
  // Wall reflection

  /**
   * The wall test of update_position for one axis: the square centred at `p`
   * with half-size `size` reaches past 1 or past -1; equivalently, its
   * centre lies outside the interval [-1 + size, 1 - size].
   */
  predicate OutOfBounds(p: real, size: real)
    ensures OutOfBounds(p, size) <==> !(-1.0 + size <= p <= 1.0 - size)
  {
    p + size > 1.0 || p - size < -1.0
  }

  /** The square lies between the walls on this axis. */
  predicate InsideWalls(p: real, size: real)
  {
    !OutOfBounds(p, size)
  }

  /**
   * The speed one axis has after the wall test, given the position `p` it
   * has already moved to: negated exactly when the square is out of bounds.
   */
  function Reflect(p: real, v: real, size: real): (r: real)
    ensures Abs(r) == Abs(v)
    ensures OutOfBounds(p, size) ==> r == -v
    ensures !OutOfBounds(p, size) ==> r == v
  {
    if OutOfBounds(p, size) then -v else v
  }

  /**
   * update_position for one body: move by the velocity, then test each axis
   * on its own against the walls. The position is never clamped.
   */
  function Advance(b: Body, size: real): (r: Body)
    ensures r.x == b.x + b.vx && r.y == b.y + b.vy
    ensures Abs(r.vx) == Abs(b.vx) && Abs(r.vy) == Abs(b.vy)
    ensures OutOfBounds(r.x, size) ==> r.vx == -b.vx
    ensures !OutOfBounds(r.x, size) ==> r.vx == b.vx
    ensures OutOfBounds(r.y, size) ==> r.vy == -b.vy
    ensures !OutOfBounds(r.y, size) ==> r.vy == b.vy
  {
    var x := b.x + b.vx;
    var y := b.y + b.vy;
    Body(x, y, Reflect(x, b.vx, size), Reflect(y, b.vy, size))
  }

  /** update_position applied to shape 1 or to shape 2 of the state. */
  function Update(s: State, w: Which): (r: State)
    ensures r.shapeSize == s.shapeSize && r.collisions == s.collisions
    ensures w == First ==> r.first == Advance(s.first, s.shapeSize) && r.second == s.second
    ensures w == Second ==> r.second == Advance(s.second, s.shapeSize) && r.first == s.first
  {
    match w
    case First => s.(first := Advance(s.first, s.shapeSize))
    case Second => s.(second := Advance(s.second, s.shapeSize))
  }

  // ---------------------------------------------------------------------------
  // Collision

  /** The square of get_distance: no square root is taken. */
  function SquaredDistance(a: Body, b: Body): (d: real)
    ensures d >= 0.0
    ensures a.x == b.x && a.y == b.y ==> d == 0.0
  {
    var dx := b.x - a.x;
    var dy := b.y - a.y;
    dx * dx + dy * dy
  }

  /**
   * The collision test of handle_collision, `dist < SHAPE_SIZE * 2`, with the
   * square root removed (see DistanceTest for the equivalence). It never
   * holds for a half-size that is not positive.
   */
  predicate Touching(a: Body, b: Body, size: real)
    ensures Touching(a, b, size) ==> 0.0 < size
  {
    0.0 < size && SquaredDistance(a, b) < 4.0 * size * size
  }

  /** The collision test does not depend on which square is named first. */
  lemma TouchingSymmetric(a: Body, b: Body, size: real)
    ensures Touching(a, b, size) <==> Touching(b, a, size)
  {
  }

  /**
   * handle_collision: when the centres are closer than twice the half-size,
   * the two bodies exchange their velocities and the counter goes up by one;
   * otherwise nothing changes. Positions are never corrected.
   */
  function Collide(s: State): (r: State)
    ensures r.first.x == s.first.x && r.first.y == s.first.y
    ensures r.second.x == s.second.x && r.second.y == s.second.y
    ensures r.shapeSize == s.shapeSize
    ensures r.first.vx + r.second.vx == s.first.vx + s.second.vx
    ensures r.first.vy + r.second.vy == s.first.vy + s.second.vy
    ensures r.collisions == s.collisions + 1 <==> Touching(s.first, s.second, s.shapeSize)
    ensures r.collisions == s.collisions <==> !Touching(s.first, s.second, s.shapeSize)
    ensures Touching(s.first, s.second, s.shapeSize) ==>
      r.first.vx == s.second.vx && r.first.vy == s.second.vy &&
      r.second.vx == s.first.vx && r.second.vy == s.first.vy
    ensures !Touching(s.first, s.second, s.shapeSize) ==> r == s
  {
    if Touching(s.first, s.second, s.shapeSize) then
      s.(first := s.first.(vx := s.second.vx, vy := s.second.vy),
         second := s.second.(vx := s.first.vx, vy := s.first.vy),
         collisions := s.collisions + 1)
    else
      s
  }

  /** For a non-negative real `a`, `a < b` and `a * a < b * b` agree. */
  lemma SquareLess(a: real, b: real)
    requires 0.0 <= a
    ensures a < b <==> (0.0 < b && a * a < b * b)
  {
    if a < b {
      calc {
        a * a;
        <= a * b;
        < b * b;
      }
    } else if 0.0 < b {
      calc {
        b * b;
        <= b * a;
        <= a * a;
      }
    }
  }

  /**
   * get_distance takes a square root; the model compares squares instead.
   * For any non-negative `dist` whose square is the squared distance (that is,
   * dist is the root get_distance returns), the C test `dist < 2 * size`
   * holds exactly when Touching does, whatever the sign of `size`.
   */
  lemma DistanceTest(a: Body, b: Body, size: real, dist: real)
    requires 0.0 <= dist && dist * dist == SquaredDistance(a, b)
    ensures dist < 2.0 * size <==> Touching(a, b, size)
  {
    SquareLess(dist, 2.0 * size);
    assert (2.0 * size) * (2.0 * size) == 4.0 * size * size;
  }

  /** A second exchange in the same position undoes the first one's velocities. */
  lemma CollideTwice(s: State)
    requires Touching(s.first, s.second, s.shapeSize)
    ensures var r := Collide(Collide(s));
      r.first == s.first && r.second == s.second && r.collisions == s.collisions + 2
  {
  }

  // ---------------------------------------------------------------------------
  // The frame step and its repetition

  /**
   * One pass of the main loop: shape 1, shape 2, then the collision check.
   * Both squares move by their old velocities, and a collision is counted
   * exactly when the squares touch at their new positions. When they touch,
   * each leaves with the other's speeds after its own wall test; otherwise
   * each is just as update_position left it.
   */
  function Frame(s: State): (r: State)
    ensures r.first.x == s.first.x + s.first.vx && r.first.y == s.first.y + s.first.vy
    ensures r.second.x == s.second.x + s.second.vx && r.second.y == s.second.y + s.second.vy
    ensures r.shapeSize == s.shapeSize
    ensures s.collisions <= r.collisions <= s.collisions + 1
    ensures r.collisions == s.collisions + 1 <==>
      Touching(Advance(s.first, s.shapeSize), Advance(s.second, s.shapeSize), s.shapeSize)
    ensures var m1, m2 := Advance(s.first, s.shapeSize), Advance(s.second, s.shapeSize);
      if Touching(m1, m2, s.shapeSize) then
        r.first.vx == m2.vx && r.first.vy == m2.vy && r.second.vx == m1.vx && r.second.vy == m1.vy
      else
        r.first == m1 && r.second == m2
  {
    Collide(Update(Update(s, First), Second))
  }

  /** The state after `n` passes of the main loop; the half-size never changes. */
  function Run(s: State, n: nat): (r: State)
    ensures r.shapeSize == s.shapeSize
  {
    if n == 0 then s else Frame(Run(s, n - 1))
  }

  /**
   * Over any number of frames the counter never decreases and goes up by at
   * most one per frame.
   */
  lemma {:induction false} RunCounts(s: State, n: nat)
    ensures s.collisions <= Run(s, n).collisions <= s.collisions + n
  {
    if n > 0 {
      RunCounts(s, n - 1);
    }
  }

  /** The counter is monotone along a run: later frames never show fewer collisions. */
  lemma {:induction false} RunMonotone(s: State, m: nat, n: nat)
    requires m <= n
    ensures Run(s, m).collisions <= Run(s, n).collisions
  {
    if m < n {
      RunMonotone(s, m, n - 1);
    }
  }

  // ---------------------------------------------------------------------------
  // How far past a wall a lone square can get

  /**
   * On one axis, the square overshoots a wall by at most one speed step, and
   * while it overshoots a wall its speed already points away from that wall.
   */
  predicate Contained(p: real, v: real, size: real)
  {
    && p + size <= 1.0 + Abs(v)
    && p - size >= -1.0 - Abs(v)
    && (p + size > 1.0 ==> v < 0.0)
    && (p - size < -1.0 ==> v > 0.0)
  }

  predicate BodyContained(b: Body, size: real)
  {
    Contained(b.x, b.vx, size) && Contained(b.y, b.vy, size)
  }

  /** A square between the walls is contained, whatever its speed. */
  lemma InsideIsContained(p: real, v: real, size: real)
    requires InsideWalls(p, size)
    ensures Contained(p, v, size)
  {
  }

  /** One axis of update_position keeps Contained, for a half-size up to 1. */
  lemma AxisStepContained(p: real, v: real, size: real)
    requires size <= 1.0
    requires Contained(p, v, size)
    ensures Contained(p + v, Reflect(p + v, v, size), size)
  {
  }

  /** update_position keeps a body contained. */
  lemma AdvanceContained(b: Body, size: real)
    requires size <= 1.0
    requires BodyContained(b, size)
    ensures BodyContained(Advance(b, size), size)
  {
  }

  /**
   * `n` calls of update_position on one body, with no collision in between;
   * the speeds keep their magnitudes.
   */
  function Bounce(b: Body, size: real, n: nat): (r: Body)
    ensures Abs(r.vx) == Abs(b.vx) && Abs(r.vy) == Abs(b.vy)
  {
    if n == 0 then b else Advance(Bounce(b, size, n - 1), size)
  }

  /**
   * A square that starts between the walls and meets no other square is never
   * more than one speed step past a wall.
   */
  lemma {:induction false} BounceContained(b: Body, size: real, n: nat)
    requires size <= 1.0
    requires InsideWalls(b.x, size) && InsideWalls(b.y, size)
    ensures BodyContained(Bounce(b, size, n), size)
  {
    if n == 0 {
      InsideIsContained(b.x, b.vx, size);
      InsideIsContained(b.y, b.vy, size);
    } else {
      BounceContained(b, size, n - 1);
      AdvanceContained(Bounce(b, size, n - 1), size);
    }
  }

  // ---------------------------------------------------------------------------
  // Initialisation

  /** set_shape_size: only the half-size changes. */
  function Resize(s: State, size: real): (r: State)
    ensures r.shapeSize == size
    ensures r.first == s.first && r.second == s.second && r.collisions == s.collisions
  {
    s.(shapeSize := size)
  }

  /** init_speeds: fixed directions scaled by `coef`; positions are untouched. */
  function SetSpeeds(s: State, coef: real): (r: State)
    ensures r.first.vx == coef * 0.01 && r.first.vy == coef * 0.015
    ensures r.second.vx == coef * -0.015 && r.second.vy == coef * -0.01
    ensures r.first.x == s.first.x && r.first.y == s.first.y
    ensures r.second.x == s.second.x && r.second.y == s.second.y
    ensures r.shapeSize == s.shapeSize && r.collisions == s.collisions
  {
    s.(first := s.first.(vx := coef * 0.01, vy := coef * 0.015),
       second := s.second.(vx := coef * -0.015, vy := coef * -0.01))
  }

  /**
   * init_position with its four draws r1..r4 (in the order x1, y1, x2, y2),
   * using the half-size S current at the call: shape 1 lands in
   * [-0.5 + S, S] on each axis, shape 2 in [S, 0.5 + S].
   */
  function Place(s: State, r1: real, r2: real, r3: real, r4: real): (r: State)
    requires IsDraw(r1) && IsDraw(r2) && IsDraw(r3) && IsDraw(r4)
    ensures -0.5 + s.shapeSize <= r.first.x <= s.shapeSize
    ensures -0.5 + s.shapeSize <= r.first.y <= s.shapeSize
    ensures s.shapeSize <= r.second.x <= 0.5 + s.shapeSize
    ensures s.shapeSize <= r.second.y <= 0.5 + s.shapeSize
    ensures r.first.vx == s.first.vx && r.first.vy == s.first.vy
    ensures r.second.vx == s.second.vx && r.second.vy == s.second.vy
    ensures r.shapeSize == s.shapeSize && r.collisions == s.collisions
  {
    var S := s.shapeSize;
    s.(first := s.first.(x := -0.5 + S + r1 * 0.5, y := -0.5 + S + r2 * 0.5),
       second := s.second.(x := 0.5 + S - r3 * 0.5, y := 0.5 + S - r4 * 0.5))
  }

  /**
   * The globals before main runs. The eight locals of main are not
   * initialised in C; they are zero here and are all overwritten by Startup.
   * SHAPE_SIZE starts at 0.2 and no collision has been counted.
   */
  function Globals(): (r: State)
    ensures r.shapeSize == DefaultShapeSize && r.collisions == 0
  {
    State(Body(0.0, 0.0, 0.0, 0.0), Body(0.0, 0.0, 0.0, 0.0), DefaultShapeSize, 0)
  }

  /**
   * The start of main (main.c:114-117): speeds with coefficient 0.5, positions
   * placed while the half-size is still 0.2, then the half-size set to 0.1.
   * Both squares then lie between the walls, shape 1 in [-0.3, 0.2] and
   * shape 2 in [0.2, 0.7] on each axis, and no collision has been counted.
   */
  function Startup(r1: real, r2: real, r3: real, r4: real): (r: State)
    requires IsDraw(r1) && IsDraw(r2) && IsDraw(r3) && IsDraw(r4)
    ensures r.shapeSize == DemoShapeSize && r.collisions == 0
    ensures r.first.vx == 0.005 && r.first.vy == 0.0075
    ensures r.second.vx == -0.0075 && r.second.vy == -0.005
    ensures -0.3 <= r.first.x <= 0.2 && -0.3 <= r.first.y <= 0.2
    ensures 0.2 <= r.second.x <= 0.7 && 0.2 <= r.second.y <= 0.7
    ensures InsideWalls(r.first.x, r.shapeSize) && InsideWalls(r.first.y, r.shapeSize)
    ensures InsideWalls(r.second.x, r.shapeSize) && InsideWalls(r.second.y, r.shapeSize)
  {
    Resize(Place(SetSpeeds(Globals(), DemoSpeedCoef), r1, r2, r3, r4), DemoShapeSize)
  }

  // ---------------------------------------------------------------------------
  // Worked scenarios

  /**
   * Half-size 0.1 at x = 0.95 with speed 0.1: the square moves to 1.05, is
   * past the wall, its speed flips to -0.1, and the next step brings it back
   * to 0.95.
   */
  lemma WallScenario()
    ensures var b := Advance(Body(0.95, 0.0, 0.1, 0.0), 0.1);
      b.x == 1.05 && b.vx == -0.1 && Advance(b, 0.1).x == 0.95
  {
  }

  /** Two squares at the same centre collide at once; nothing guards that case. */
  lemma SameCentreCollides(s: State)
    requires s.first.x == s.second.x && s.first.y == s.second.y
    requires 0.0 < s.shapeSize
    ensures Collide(s).collisions == s.collisions + 1
  {
    assert SquaredDistance(s.first, s.second) == 0.0;
    SquareLess(0.0, 2.0 * s.shapeSize);
    assert (2.0 * s.shapeSize) * (2.0 * s.shapeSize) == 4.0 * s.shapeSize * s.shapeSize;
  }

  /**
   * Shape 1 moving at (0.01, 0.015) meets shape 2 moving at (-0.015, -0.01):
   * afterwards shape 1 moves at (-0.015, -0.01) and shape 2 at (0.01, 0.015).
   */
  lemma SwapScenario()
    ensures var r := Collide(State(Body(0.0, 0.0, 0.01, 0.015), Body(0.1, 0.1, -0.015, -0.01), 0.1, 0));
      r.first.vx == -0.015 && r.first.vy == -0.01 &&
      r.second.vx == 0.01 && r.second.vy == 0.015 && r.collisions == 1
  {
  }

  /**
   * The collision test is strict: with half-size 0.1 the centres exactly 0.2
   * apart do not collide, 0.19999 apart they do.
   */
  lemma ThresholdScenario()
    ensures !Touching(Body(0.0, 0.0, 0.0, 0.0), Body(0.2, 0.0, 0.0, 0.0), 0.1)
    ensures Touching(Body(0.0, 0.0, 0.0, 0.0), Body(0.19999, 0.0, 0.0, 0.0), 0.1)
  {
  }
}
