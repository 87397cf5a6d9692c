/**
 * The demo's state as it lives in main.c: the eight floats of main (updated
 * through pointers by update_position, handle_collision, init_speeds and
 * init_position) and the two globals SHAPE_SIZE and collisions, gathered as
 * the fields of one object. Each method performs its C function's updates in
 * place and is proved to leave the state that the matching function of
 * module Physics computes.
 */
module Squares {
  import opened Physics

  /**
   * The body of update_position on the four values its pointers reach:
   * move, then flip each speed whose axis is past a wall.
   */
  method MoveAndReflect(x: real, y: real, vx: real, vy: real, size: real)
    returns (x': real, y': real, vx': real, vy': real)
    ensures Body(x', y', vx', vy') == Advance(Body(x, y, vx, vy), size)
  {
    x' := x + vx;
    y' := y + vy;
    vx' := vx;
    vy' := vy;
    if x' + size > 1.0 || x' - size < -1.0 {
      vx' := -vx';
    }
    if y' + size > 1.0 || y' - size < -1.0 {
      vy' := -vy';
    }
  }

  class Simulation {
    // shape 1
    var x1: real
    var y1: real
    var vx1: real
    var vy1: real
    // shape 2
    var x2: real
    var y2: real
    var vx2: real
    var vy2: real
    /** SHAPE_SIZE: the half-size of both squares. */
    var shapeSize: real
    /** The global collision counter. */
    var collisions: nat

    /** The fields read as a value of the model. */
    function Snapshot(): State
      reads this
    {
      State(Body(x1, y1, vx1, vy1), Body(x2, y2, vx2, vy2), shapeSize, collisions)
    }

    /**
     * Program start: the globals take their initial values, then main calls
     * init_speeds(0.5), init_position with the draws r1..r4, and
     * set_shape_size(0.1), in that order.
     */
    constructor (r1: real, r2: real, r3: real, r4: real)
      requires IsDraw(r1) && IsDraw(r2) && IsDraw(r3) && IsDraw(r4)
      ensures Snapshot() == Startup(r1, r2, r3, r4)
    {
      x1, y1, vx1, vy1 := 0.0, 0.0, 0.0, 0.0;
      x2, y2, vx2, vy2 := 0.0, 0.0, 0.0, 0.0;
      shapeSize := DefaultShapeSize;
      collisions := 0;
      new;
      InitSpeeds(DemoSpeedCoef);
      InitPosition(r1, r2, r3, r4);
      SetShapeSize(DemoShapeSize);
    }

    /** set_shape_size. */
    method SetShapeSize(size: real)
      modifies this
      ensures Snapshot() == Resize(old(Snapshot()), size)
    {
      shapeSize := size;
    }

    /** init_speeds. */
    method InitSpeeds(coef: real)
      modifies this
      ensures Snapshot() == SetSpeeds(old(Snapshot()), coef)
    {
      vx1 := coef * 0.01;
      vy1 := coef * 0.015;
      vx2 := coef * -0.015;
      vy2 := coef * -0.01;
    }

    /** init_position, with its four draws given in the order they are made. */
    method InitPosition(r1: real, r2: real, r3: real, r4: real)
      requires IsDraw(r1) && IsDraw(r2) && IsDraw(r3) && IsDraw(r4)
      modifies this
      ensures Snapshot() == Place(old(Snapshot()), r1, r2, r3, r4)
    {
      x1 := -0.5 + shapeSize + r1 * 0.5;
      y1 := -0.5 + shapeSize + r2 * 0.5;
      x2 := 0.5 + shapeSize - r3 * 0.5;
      y2 := 0.5 + shapeSize - r4 * 0.5;
    }

    /** update_position on shape 1 or shape 2; the other shape is untouched. */
    method UpdatePosition(w: Which)
      modifies this
      ensures Snapshot() == Update(old(Snapshot()), w)
    {
      match w
      case First =>
        x1, y1, vx1, vy1 := MoveAndReflect(x1, y1, vx1, vy1, shapeSize);
      case Second =>
        x2, y2, vx2, vy2 := MoveAndReflect(x2, y2, vx2, vy2, shapeSize);
    }

    /**
     * handle_collision: exchange the two velocities through a temporary and
     * count the collision when the centres are closer than twice the
     * half-size (compared as squares; see Physics.DistanceTest).
     */
    method HandleCollision()
      modifies this
      ensures Snapshot() == Collide(old(Snapshot()))
    {
      var dx := x2 - x1;
      var dy := y2 - y1;
      if 0.0 < shapeSize && dx * dx + dy * dy < 4.0 * shapeSize * shapeSize {
        var tempXSpeed := vx1;
        var tempYSpeed := vy1;
        vx1 := vx2;
        vy1 := vy2;
        vx2 := tempXSpeed;
        vy2 := tempYSpeed;
        collisions := collisions + 1;
      }
    }

    /** One pass of the main loop: shape 1, shape 2, then the collision check. */
    method Step()
      modifies this
      ensures Snapshot() == Frame(old(Snapshot()))
    {
      UpdatePosition(First);
      UpdatePosition(Second);
      HandleCollision();
    }

    /**
     * The main loop for `n` passes (the window closing after the n-th one).
     * The counter only goes up, by at most one per pass.
     */
    method RunFrames(n: nat)
      modifies this
      ensures Snapshot() == Run(old(Snapshot()), n)
      ensures old(collisions) <= collisions <= old(collisions) + n
      ensures shapeSize == old(shapeSize)
    {
      var i := 0;
      while i < n
        invariant i <= n
        invariant Snapshot() == Run(old(Snapshot()), i)
      {
        Step();
        i := i + 1;
      }
      RunCounts(old(Snapshot()), n);
    }
  }
}
