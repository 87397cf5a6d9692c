# Bouncing squares: the frame step, verified

A model of the simulation core of a small OpenGL demo (`main.c`). Two squares
of half-size `SHAPE_SIZE` move inside the box [-1, 1] × [-1, 1]. Each frame,
`update_position` moves each square by its velocity and negates a velocity
component whose axis has gone past a wall. Then `handle_collision` swaps the
two velocity vectors when the centres are closer than `2 * SHAPE_SIZE`, and it
increments the global `collisions` counter. At start-up, `main` sets the
speeds with `init_speeds(0.5)`. It places the squares with `init_position`
while `SHAPE_SIZE` is still 0.2, and only then sets `SHAPE_SIZE` to 0.1.

The project has two modules:

- `Physics` (Physics.dfy) holds the state as values. A `Body` is one square's
  centre and velocity. A `State` holds both bodies, the half-size and the
  counter. Each C function is a function from the old state to the new one
  (`Advance`/`Update`, `Collide`, `Resize`, `SetSpeeds`, `Place`). The frame
  step is `Frame`, the main loop is `Run`, and start-up is `Startup`. The
  lemmas about them are in the same module.
- `Squares` (Squares.dfy) holds the state as `main.c` keeps it. The class
  `Simulation` has the eight floats of `main` and the two globals as fields.
  Its methods perform each C function's writes in place. Each method is
  proved to leave `Snapshot()` equal to the matching `Physics` function of the
  old snapshot. `MoveAndReflect` is the body of `update_position` on the four
  values its pointers reach.

C `float` is modelled as `real`, so arithmetic is exact. `get_distance` takes
a square root; the model compares squared distances instead. `DistanceTest`
proves that this comparison agrees with `dist < 2 * SHAPE_SIZE` for any
non-negative root `dist` and any sign of the half-size. The four
`rand() / RAND_MAX` draws of `init_position` are parameters in [0, 1].

## Model

| member | source | states |
|---|---|---|
| `Physics.OutOfBounds` | main.c:60 | the wall test `p + S > 1 or p - S < -1` holds exactly when the centre lies outside [-1 + S, 1 - S] |
| `Physics.Reflect` | main.c:60-67 | the wall test keeps the speed's magnitude, and negates the speed exactly when the moved square is past a wall |
| `Physics.Advance` | main.c:56-68 | the new position is old position plus speed on each axis; each axis's speed is negated when that axis is out of bounds and kept otherwise; magnitudes are kept; the position is not clamped |
| `Physics.Update` | main.c:137-138 | update_position on one shape advances that shape and leaves the other shape, the half-size and the counter unchanged |
| `Squares.MoveAndReflect` | main.c:56-68 | the C statement sequence (add speeds, then test x and y on their own) yields exactly `Advance` |
| `Squares.Simulation.UpdatePosition` | main.c:56-68 | updating one shape's fields in place leaves the state `Update` gives |
| `Physics.SquaredDistance` | main.c:49-54 | the squared centre distance is non-negative and is zero for equal centres |
| `Physics.Touching` | main.c:82 | the squared collision test never holds for a half-size that is not positive |
| `Physics.TouchingSymmetric` | main.c:49-54 | the collision test gives the same answer whichever square is named first |
| `Physics.DistanceTest` | main.c:81-82 | for any non-negative `dist` with `dist * dist` equal to the squared distance, `dist < 2 * size` holds exactly when `Touching` does |
| `Physics.Collide` | main.c:78-92 | positions and half-size never change; when the squares touch, velocities are exchanged and the counter rises by exactly 1; otherwise the state is unchanged; the sum of the velocities is kept |
| `Physics.CollideTwice` | main.c:84-89 | a second exchange at the same positions restores both velocities and counts a second collision |
| `Physics.SameCentreCollides` | main.c:81-82 | squares with the same centre and a positive half-size always collide |
| `Squares.Simulation.HandleCollision` | main.c:78-92 | the temporary-variable swap and counter increment in place leave the state `Collide` gives |
| `Physics.Frame` | main.c:137-139 | one frame moves both squares by their old speeds, keeps the half-size, and adds 1 to the counter exactly when the moved squares touch; touching squares leave with each other's post-wall-test speeds, and otherwise both are as update_position left them |
| `Squares.Simulation.Step` | main.c:137-139 | the three calls in this order leave the state `Frame` gives |
| `Physics.Run` | main.c:130-142 | any number of passes of the loop leaves the half-size unchanged |
| `Physics.RunCounts` | main.c:130-142 | over n frames the counter never decreases and rises by at most n |
| `Physics.RunMonotone` | main.c:130-142 | the counter after m frames is at most the counter after any n >= m frames |
| `Squares.Simulation.RunFrames` | main.c:130-142 | n passes of the loop leave the state `Run` gives; the counter rises by between 0 and n |
| `Physics.AxisStepContained` | main.c:58-67 | for half-size at most 1, one axis step keeps the square within one speed step of the walls, with its speed pointing back while it is past a wall |
| `Physics.AdvanceContained` | main.c:56-68 | update_position keeps that containment on both axes |
| `Physics.Bounce` | main.c:56-68 | repeated update_position on one square, with no collision in between, keeps both speed magnitudes |
| `Physics.BounceContained` | main.c:56-68 | a square that starts between the walls and meets no other square stays contained for any number of steps |
| `Physics.WallScenario` | main.c:58-67 | at half-size 0.1, x = 0.95 with speed 0.1 moves to 1.05 and flips to -0.1; the next step returns to 0.95 |
| `Physics.ThresholdScenario` | main.c:82 | at half-size 0.1, centres exactly 0.2 apart do not collide and centres 0.19999 apart do |
| `Physics.SwapScenario` | main.c:84-89 | touching squares with speeds (0.01, 0.015) and (-0.015, -0.01) leave with those speeds exchanged |
| `Physics.Resize` | main.c:70-72 | set_shape_size changes the half-size only |
| `Squares.Simulation.SetShapeSize` | main.c:70-72 | in place, the state `Resize` gives |
| `Physics.SetSpeeds` | main.c:94-100 | speeds become coef·(0.01, 0.015) for shape 1 and coef·(-0.015, -0.01) for shape 2; nothing else changes |
| `Squares.Simulation.InitSpeeds` | main.c:94-100 | in place, the state `SetSpeeds` gives |
| `Physics.Place` | main.c:102-107 | with draws in [0, 1] and current half-size S, shape 1 lands in [-0.5 + S, S] and shape 2 in [S, 0.5 + S] on each axis; speeds, half-size and counter unchanged |
| `Squares.Simulation.InitPosition` | main.c:102-107 | in place, the state `Place` gives |
| `Physics.Globals` | main.c:10 | before main runs, SHAPE_SIZE is 0.2 and the collision counter (declared with 0 at main.c:74) is 0 |
| `Physics.Startup` | main.c:112-117 | after start-up the half-size is 0.1, the counter 0, the speeds (0.005, 0.0075) and (-0.0075, -0.005); shape 1 lies in [-0.3, 0.2] and shape 2 in [0.2, 0.7] on each axis, both between the walls |
| `Squares.Simulation.constructor` | main.c:112-117 | the globals' initial values, then init_speeds, init_position and set_shape_size in that order, leave the state `Startup` gives |

## Left out

- Window, context and input handling (`error_callback`, `key_callback`, `set_window_size`, GLFW set-up, buffer swapping, event polling, teardown): calls into a graphics library with no simulation logic.
- `draw_shape` and the drawing of both squares before each update: rendering only reads the state.
- `srand(time(NULL))` and `rand()`: the clock and the generator are replaced by four draw parameters in [0, 1].
- Floating-point rounding and `sqrt`: the model uses exact `real` arithmetic and a squared-distance comparison, so trajectories are not bit-exact.
- The window-close condition of the main loop: `RunFrames` takes the number of passes as a parameter instead.
- `collisions` is a C `int`; the model uses an unbounded `nat`, so overflow after 2^31 - 1 collisions is not modelled.
- The eight locals of `main` start uninitialised in C; the model starts them at zero, and start-up overwrites all of them.
- Physics.BounceContained: the containment holds for a square that meets no other square; a velocity swap can hand a square outside a wall a speed that points further out, so the model claims nothing about containment across collisions.
- Repeated movement adding n times the speed holds only while no wall and no collision is met; it is not stated as a lemma.
