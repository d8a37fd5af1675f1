# shipbattle kinematics and obstacle scan, in Dafny

This project models the computational core of the `shipbattle` naval game.

- **`gameCalculations.c`**: the four loops that rewrite arrays of `Ship` and `Projectile` records in place.
  - `updateShipPositions` moves each ship along its heading and adds the displacement to `distanceMoved`.
  - `initializeShips` fills the six slots from the fixed spawn table.
  - `initializeProjectiles` turns heading and elevation into a three-axis launch velocity.
  - `updateProjectiles` steps only airborne cannonballs. It moves them first and then applies gravity.
- **`main.c`**:
  - the global table of eight island obstacles (`initObstacles`);
  - the index-order scan `checkCollision`, which answers 0 at the first island overlapping the ship's 100 × 100 box and 1 otherwise;
  - the per-frame update of the single player ship: move it, turn it to the mouse, then overwrite `isAlive` with the scan's answer.

Files:

- `vectors.dfy` (module `Vectors`): raylib's `Vector2`/`Vector3`, the raymath add and subtract, and `Trig`.
- `entities.dfy` (module `Entities`): the records of `gameCalculations.h`.
- `game_calculations.dfy` (module `GameCalculations`): the kinematics.
- `main_loop.dfy` (module `ShipBattle`): the obstacle table, the scan and the frame step. Class `World` holds the global `obstacles` array.

Modelling choices:

- `float` is modelled as `real`.
- `cosf` and `sinf` are not modelled. They are passed as a `Trig` value of two total functions. A lemma that needs a particular value (`cos 0 = 1`, or `cos² + sin² = 1` at a given angle) asks for it in its `requires`.
- `M_PI` is the decimal literal from `math.h`.
- The C loops that update array slots field by field are methods on `array<Ship>` / `array<Projectile>`. Each is proved against a function that describes one slot (`MoveShip`, `Launch`, `StepProjectile`).
- Properties over several frames are lemmas about those functions: additivity of ship moves, the closed-form Euler trajectory, and landed cannonballs staying frozen.
- raylib's `CheckCollisionRecs` is not among the modelled files. It is modelled as raylib's strict axis-aligned overlap test: touching edges do not collide.

Behaviour of the code worth knowing:

- Dead ships move: `updateShipPositions` has no `isAlive` check (`MoveIgnoresIsAlive`).
- `isAlive` is not monotonic: `main.c:71` overwrites it every frame, so a ship that clears every island is alive again (`AliveIsRecomputed`, `DeadShipRevived`).
- `checkCollision` tests an axis-aligned 100 × 100 box with its top-left corner at the ship's position.
- `initializeProjectiles` sets only the speed and leaves the position alone.
- The muzzle speed has two conflicting definitions. `gameCalculations.h:3` defines the macro `PROJECTILE_SPEED` as `200.0f`. `gameCalculations.c:8` declares a constant of the same name as `150.0f`. Because the header is included before line 8, the macros `PROJECTILE_SPEED` and `GRAVITY` turn lines 8-9 into `const float 200.0f = 150.0f;` and `const float 45.0f = 45.0f;` as written. The model picks 150. None of the lemmas depend on the value.
- Two signatures differ between the header (`gameCalculations.h:41-42`) and the `.c` file: `updateProjectiles` and `initializeProjectiles`. `updateShipPositions` and `initializeShips` match. The model follows the `.c` bodies.

## Model

| member | source | states |
|---|---|---|
| GameCalculations.MoveShip | gameCalculations.c:38-44 | The new position is the old one plus (cos h · speed · Δt, sin h · speed · Δt). The new distanceMoved is the old one plus (new position − old position). Team, speed, heading and isAlive are unchanged. |
| GameCalculations.UpdateShipPositions | gameCalculations.c:37-46 | Every slot below shipCount becomes MoveShip of its old value, alive or dead. Every slot from shipCount on is untouched, and a negative count touches nothing. The array as a whole equals MovedFleet of the old array. |
| GameCalculations.MoveIgnoresIsAlive | gameCalculations.c:37-45 | Changing isAlive before a move changes only isAlive after it: the move neither reads nor writes it, so dead ships are moved too. |
| GameCalculations.MoveShipAdditive | gameCalculations.c:39-44 | A step of a seconds followed by a step of b seconds gives the same ship, position and distanceMoved included, as one step of a + b. |
| GameCalculations.FleetStepsAdd | gameCalculations.c:37-46 | The same additivity holds for the whole array after two calls of updateShipPositions. |
| GameCalculations.TwoOneSecondSteps | gameCalculations.c:38-44 | Assume cos 0 = 1 and sin 0 = 0. A ship at (0,0) with heading 0 and speed 50 is at (100,0) with distanceMoved (100,0) after two 1-second steps. |
| GameCalculations.InitializeShips | gameCalculations.c:49-53 | All six slots are written whatever shipCount is. Slot i gets team i, the spawn position and heading of slot i, speed 0, isAlive 1 and distanceMoved (0,0). Later slots are untouched, and slot 4's heading is 0. |
| GameCalculations.SpawnedShipStaysPut | gameCalculations.c:11-53 | A spawned ship is alive, on team i and at spawn point i. Because its speed is 0, a move of any duration leaves it unchanged. |
| GameCalculations.Launch | gameCalculations.c:57-61 | The speed is (cos h · cos a · V, sin h · cos a · V, sin a · V) with V = 150. Position, team, heading and elevation are unchanged. |
| GameCalculations.InitializeProjectiles | gameCalculations.c:56-62 | Every slot below the count becomes Launch of its old value. The other slots are untouched. |
| GameCalculations.LaunchSpeedIsMuzzleSpeed | gameCalculations.c:58-60 | Assume cos² + sin² = 1 at the heading and at the elevation. Then the launch velocity's squared length is V². |
| GameCalculations.LaunchAlongHeading | gameCalculations.c:58-59 | The horizontal launch velocity is parallel to the heading: vx · sin h = vy · cos h. |
| GameCalculations.StepProjectile | gameCalculations.c:67-71 | A projectile with z ≤ 0 is returned unchanged. An airborne one moves by its pre-gravity speed · Δt on all three axes, and only then loses G · Δt from speed.z. speed.x, speed.y, team, heading and angle never change. |
| GameCalculations.UpdateProjectiles | gameCalculations.c:65-72 | Every slot below the count becomes StepProjectile of its old value. The other slots are untouched. |
| GameCalculations.AirborneTrajectory | gameCalculations.c:68-70 | Suppose the projectile is in the air before each of n frames of Δt. Then it ends where Ballistic says: x and y advance linearly, z = z0 + vz·t − G·t·(t − Δt)/2 with t = n·Δt, and speed.z has lost G·t. Because each frame moves before applying gravity, the path lies G·t·Δt/2 above the continuous parabola. |
| GameCalculations.BallisticStep | gameCalculations.c:69-70 | One airborne frame takes the closed form from n − 1 frames to n frames. |
| GameCalculations.LandedStaysPut | gameCalculations.c:68 | A projectile at or below z = 0 stays exactly as it is for any number of frames. |
| GameCalculations.NeverRisesWhileFalling | gameCalculations.c:68-70 | With Δt ≥ 0, a projectile whose vertical speed is ≤ 0 keeps it ≤ 0 and never rises above its starting height. |
| GameCalculations.FlatShotNeverRises | gameCalculations.c:56-71 | Assume sin 0 = 0 and Δt ≥ 0. A shot launched at elevation 0 never rises above the height it was fired from. |
| ShipBattle.FirstOverlapFrom | main.c:141-145 | The index-order scan returns the least index at or after i whose obstacle overlaps the box. If no such index exists it returns None. |
| ShipBattle.CollisionFlag | main.c:138-148 | The answer is 0 or 1. It is 0 exactly when some obstacle overlaps the 100 × 100 box at the position. It depends on nothing but the position. |
| ShipBattle.LaterObstaclesIrrelevant | main.c:141-145 | Take two tables that agree up to an overlapping obstacle k. The scan finds the same first hit, at or before k, in both: obstacles after k cannot change the result. |
| ShipBattle.World.constructor | main.c:14 | Before initObstacles runs, the global table holds eight zeroed obstacles. |
| ShipBattle.World.InitObstacles | main.c:111-122 | All eight slots hold the fixed positions and sizes of the island table. |
| ShipBattle.World.CheckCollision | main.c:135-149 | The result is 0 iff some obstacle i < 8 overlaps the ship's box {position, 100, 100}, and 1 otherwise. It equals the scan's answer for the ship's position. Nothing is modified: there is no modifies clause, and the ship is a value. |
| ShipBattle.World.Frame | main.c:64-71 | ships[0] becomes FrameShip of its old value: moved, turned to the mouse heading, and isAlive overwritten. The other slots are untouched. |
| ShipBattle.FrameShip | main.c:64-71 | Position and distanceMoved are those of one move. The heading is the mouse heading. isAlive is 0 or 1, and it is 1 exactly when no obstacle overlaps the moved box, whatever it was before. |
| ShipBattle.AliveIsRecomputed | main.c:70-71 | A ship whose moved box clears every obstacle has isAlive 1 after the frame, even if it was 0 before: elimination is not monotonic. |
| ShipBattle.DeadShipRevived | main.c:58-71 | A dead, stationary ship at main's start position (1000, 500) is alive again after one frame. |
| ShipBattle.StartPositionIsClear | main.c:114-121 | A box at (1000, 500) overlaps none of the eight islands. |
| ShipBattle.IslandSixBlocks | main.c:120 | A box at (1000, 650) overlaps island 6, so the scan answers 0. |

## Left out

- Window, textures, drawing, camera, FPS and shutdown (`main.c:25-56`, `main.c:73-106`), and `drawObstacles` (`main.c:124-133`): I/O against raylib. Obstacle textures are dropped from the `Obstacle` record.
- The mouse-driven heading (`atan2f` of the cursor, `main.c:67-68`) is input. It is the `mouseHeading` parameter of the frame step. `GetFrameTime()` is the `deltaT` parameter.
- Single-precision rounding: `float` is modelled as exact `real`. So `(new position − old position)` equals `velocity · Δt` exactly, which in C holds only up to rounding.
- `cosf`, `sinf` and `M_PI` are not computed. No trigonometric identity is assumed; lemmas state the values they need as preconditions.
- `playersAlive`, `checkShipCollisions`, `checkProjectileCollision`, `checkTerrainCollision`, `getLinePoint` and `resetProjectiles` are declared in `gameCalculations.h:35-44` but have no bodies in the modelled files. `Line` and `CollisionSection` are declared as datatypes only.
- The five-phase round machine, team immunity, the ship-versus-ship test and the terrain broad and narrow phases are not in the modelled files.
- InitializeShips: requires `ships.Length >= 6`. The C writes six slots whatever the array's size, which is an out-of-bounds write when fewer are passed.
- UpdateShipPositions, InitializeProjectiles and UpdateProjectiles: each requires its count to be at most the array length. The C code would read and write past the end otherwise.
