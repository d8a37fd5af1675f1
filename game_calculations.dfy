/**
 * Ship and projectile kinematics of gameCalculations.c: the spawn table,
 * the per-frame ship move, ship initialisation, projectile launch and the
 * per-frame projectile step. Each C function is a loop that rewrites array
 * slots in place; each is modelled as a method on an array, proved against
 * a function that says what happens to one slot.
 */
module GameCalculations {
  import opened Vectors
  import opened Entities

  /**
   * Muzzle speed of every cannon. The header's macro says 200.0f and the
   * constant in gameCalculations.c says 150.0f; this model takes 150.
   */
  const PROJECTILE_SPEED: real := 150.0

  /** Downward acceleration applied to airborne projectiles. */
  const GRAVITY: real := 45.0

  /** M_PI as math.h spells it. */
  const PI: real := 3.14159265358979323846

  /** One entry of the fixed spawn table. */
  datatype SpawnPosition = SpawnPosition(position: Vec2, heading: real)

  /** The six spawn slots; slot 4 has no heading initialiser, so C zeroes it. */
  const SPAWN_POSITIONS: seq<SpawnPosition> := [
    SpawnPosition(Vec2(1432.0, 1068.0), 3.0 * PI / 2.0 - PI / 6.0),
    SpawnPosition(Vec2(730.0, 297.0), PI / 3.0),
    SpawnPosition(Vec2(683.0, 1067.0), -PI / 4.0),
    SpawnPosition(Vec2(1656.0, 772.0), PI),
    SpawnPosition(Vec2(470.0, 780.0), 0.0),
    SpawnPosition(Vec2(1466.0, 378.0), PI - PI / 6.0)
  ]

  // ---------------------------------------------------------------------
  // Ships
  // ---------------------------------------------------------------------

  /** The ship's velocity: its speed split along its heading. */
  function Velocity(s: Ship, trig: Trig): Vec2
  {
    Vec2(trig.cos(s.heading) * s.speed, trig.sin(s.heading) * s.speed)
  }

  /**
   * What one pass of the ship loop does to one ship: move it along its
   * heading for `deltaT` seconds and add the displacement to
   * `distanceMoved`. Nothing looks at `isAlive`.
   */
  function MoveShip(s: Ship, deltaT: real, trig: Trig): (r: Ship)
    ensures r.position == Vec2(s.position.x + trig.cos(s.heading) * s.speed * deltaT,
                               s.position.y + trig.sin(s.heading) * s.speed * deltaT)
    ensures r.distanceMoved == s.distanceMoved.Add(r.position.Sub(s.position))
    ensures r.team == s.team && r.speed == s.speed && r.heading == s.heading
    ensures r.isAlive == s.isAlive
  {
    var v := Velocity(s, trig);
    s.(position := Vec2(s.position.x + v.x * deltaT, s.position.y + v.y * deltaT),
       distanceMoved := Vec2(s.distanceMoved.x + v.x * deltaT, s.distanceMoved.y + v.y * deltaT))
  }

  /** The whole ship array after one call: the first `shipCount` slots moved. */
  function MovedFleet(ships: seq<Ship>, shipCount: int, deltaT: real, trig: Trig): seq<Ship>
  {
    seq(|ships|, i requires 0 <= i < |ships| =>
      if i < shipCount then MoveShip(ships[i], deltaT, trig) else ships[i])
  }

  /** updateShipPositions: move the first `shipCount` ships, dead or alive. */
  method UpdateShipPositions(ships: array<Ship>, shipCount: int, deltaT: real, trig: Trig)
    requires shipCount <= ships.Length
    modifies ships
    ensures forall k :: 0 <= k < ships.Length && k < shipCount ==>
      ships[k] == MoveShip(old(ships[k]), deltaT, trig)
    ensures forall k :: 0 <= k < ships.Length && shipCount <= k ==> ships[k] == old(ships[k])
    ensures ships[..] == MovedFleet(old(ships[..]), shipCount, deltaT, trig)
  {
    var i := 0;
    while i < shipCount
      invariant 0 <= i <= ships.Length && (i == 0 || i <= shipCount)
      invariant forall k :: 0 <= k < i ==> ships[k] == MoveShip(old(ships[k]), deltaT, trig)
      invariant forall k :: i <= k < ships.Length ==> ships[k] == old(ships[k])
    {
      var oldPos := ships[i].position;
      var speedX := trig.cos(ships[i].heading) * ships[i].speed;
      var speedY := trig.sin(ships[i].heading) * ships[i].speed;
      ships[i] := ships[i].(position := ships[i].position.(x := ships[i].position.x + speedX * deltaT));
      ships[i] := ships[i].(position := ships[i].position.(y := ships[i].position.y + speedY * deltaT));
      ships[i] := ships[i].(distanceMoved := ships[i].position.Sub(oldPos).Add(ships[i].distanceMoved));
      assert ships[i] == MoveShip(old(ships[i]), deltaT, trig);
      i := i + 1;
    }
  }

  /** Moving a ship does not depend on, and does not change, whether it is alive. */
  lemma MoveIgnoresIsAlive(s: Ship, alive: int, deltaT: real, trig: Trig)
    ensures MoveShip(s.(isAlive := alive), deltaT, trig) == MoveShip(s, deltaT, trig).(isAlive := alive)
  {
  }

  /** Two moves of `a` and `b` seconds land where one move of `a + b` does. */
  lemma MoveShipAdditive(s: Ship, a: real, b: real, trig: Trig)
    ensures MoveShip(MoveShip(s, a, trig), b, trig) == MoveShip(s, a + b, trig)
  {
    var v := Velocity(s, trig);
    assert Velocity(MoveShip(s, a, trig), trig) == v;
    assert v.x * (a + b) == v.x * a + v.x * b;
    assert v.y * (a + b) == v.y * a + v.y * b;
  }

  /** The same additivity for the whole array. */
  lemma FleetStepsAdd(ships: seq<Ship>, shipCount: int, a: real, b: real, trig: Trig)
    ensures MovedFleet(MovedFleet(ships, shipCount, a, trig), shipCount, b, trig)
         == MovedFleet(ships, shipCount, a + b, trig)
  {
    var once := MovedFleet(ships, shipCount, a + b, trig);
    var twice := MovedFleet(MovedFleet(ships, shipCount, a, trig), shipCount, b, trig);
    forall i | 0 <= i < |ships|
      ensures twice[i] == once[i]
    {
      if i < shipCount {
        MoveShipAdditive(ships[i], a, b, trig);
      }
    }
  }

  /**
   * A ship at the origin heading along +X at speed 50 is at (100, 0) after
   * two one-second steps, and has moved (100, 0).
   */
  lemma TwoOneSecondSteps(trig: Trig)
    requires trig.cos(0.0) == 1.0 && trig.sin(0.0) == 0.0
    ensures var s := Ship(0, Vec2(0.0, 0.0), 50.0, 0.0, 1, Vec2(0.0, 0.0));
            var e := MoveShip(MoveShip(s, 1.0, trig), 1.0, trig);
            e.position == Vec2(100.0, 0.0) && e.distanceMoved == Vec2(100.0, 0.0)
  {
    var s := Ship(0, Vec2(0.0, 0.0), 50.0, 0.0, 1, Vec2(0.0, 0.0));
    MoveShipAdditive(s, 1.0, 1.0, trig);
    var e := MoveShip(s, 2.0, trig);
    assert e.position.x == 100.0 by {
      assert trig.cos(s.heading) * s.speed * 2.0 == 100.0;
    }
    assert e.position.y == 0.0 by {
      assert trig.sin(s.heading) * s.speed * 2.0 == 0.0;
    }
  }

  /** The ship initializeShips puts in slot `i`. */
  function SpawnShip(i: int): Ship
    requires 0 <= i < |SPAWN_POSITIONS|
  {
    Ship(i, SPAWN_POSITIONS[i].position, 0.0, SPAWN_POSITIONS[i].heading, 1, Vec2(0.0, 0.0))
  }

  /** initializeShips: all six slots are overwritten, whatever `shipCount` is. */
  method InitializeShips(ships: array<Ship>, shipCount: int)
    requires ships.Length >= MAX_PLAYERS
    modifies ships
    ensures forall k :: 0 <= k < MAX_PLAYERS ==> ships[k] == SpawnShip(k)
    ensures forall k :: MAX_PLAYERS <= k < ships.Length ==> ships[k] == old(ships[k])
    ensures ships[4].heading == 0.0
  {
    for i := 0 to MAX_PLAYERS
      invariant forall k :: 0 <= k < i ==> ships[k] == SpawnShip(k)
      invariant forall k :: i <= k < ships.Length ==> ships[k] == old(ships[k])
    {
      ships[i] := Ship(i, SPAWN_POSITIONS[i].position, 0.0, SPAWN_POSITIONS[i].heading, 1, Vec2(0.0, 0.0));
    }
  }

  /**
   * A freshly spawned ship is alive, on its own team, at its spawn point,
   * and stays there until it is given a speed: moving it any time changes
   * nothing.
   */
  lemma SpawnedShipStaysPut(i: int, deltaT: real, trig: Trig)
    requires 0 <= i < MAX_PLAYERS
    ensures SpawnShip(i).team == i && SpawnShip(i).isAlive == 1
    ensures SpawnShip(i).position == SPAWN_POSITIONS[i].position
    ensures MoveShip(SpawnShip(i), deltaT, trig) == SpawnShip(i)
  {
  }

  // ---------------------------------------------------------------------
  // Projectiles
  // ---------------------------------------------------------------------

  /** One slot of initializeProjectiles: the launch velocity from heading and elevation. */
  function Launch(p: Projectile, trig: Trig): (r: Projectile)
    ensures r.speed == Vec3(trig.cos(p.heading) * trig.cos(p.angle) * PROJECTILE_SPEED,
                            trig.sin(p.heading) * trig.cos(p.angle) * PROJECTILE_SPEED,
                            trig.sin(p.angle) * PROJECTILE_SPEED)
    ensures r.position == p.position && r.team == p.team
    ensures r.heading == p.heading && r.angle == p.angle
  {
    var c := trig.cos(p.angle) * PROJECTILE_SPEED;
    p.(speed := Vec3(trig.cos(p.heading) * c, trig.sin(p.heading) * c, trig.sin(p.angle) * PROJECTILE_SPEED))
  }

  /** initializeProjectiles: give the first `projectileCount` projectiles their launch velocity. */
  method InitializeProjectiles(projectiles: array<Projectile>, projectileCount: int, trig: Trig)
    requires projectileCount <= projectiles.Length
    modifies projectiles
    ensures forall k :: 0 <= k < projectiles.Length && k < projectileCount ==>
      projectiles[k] == Launch(old(projectiles[k]), trig)
    ensures forall k :: 0 <= k < projectiles.Length && projectileCount <= k ==>
      projectiles[k] == old(projectiles[k])
  {
    var i := 0;
    while i < projectileCount
      invariant 0 <= i <= projectiles.Length && (i == 0 || i <= projectileCount)
      invariant forall k :: 0 <= k < i ==> projectiles[k] == Launch(old(projectiles[k]), trig)
      invariant forall k :: i <= k < projectiles.Length ==> projectiles[k] == old(projectiles[k])
    {
      var p := projectiles[i];
      projectiles[i] := p.(speed := p.speed.(x := trig.cos(p.heading) * trig.cos(p.angle) * PROJECTILE_SPEED));
      projectiles[i] := projectiles[i].(speed := projectiles[i].speed.(y := trig.sin(p.heading) * trig.cos(p.angle) * PROJECTILE_SPEED));
      projectiles[i] := projectiles[i].(speed := projectiles[i].speed.(z := trig.sin(p.angle) * PROJECTILE_SPEED));
      i := i + 1;
    }
  }

  /**
   * The launch velocity has the muzzle speed as its length, wherever
   * cos^2 + sin^2 = 1 holds for the heading and the elevation.
   */
  lemma LaunchSpeedIsMuzzleSpeed(p: Projectile, trig: Trig)
    requires trig.cos(p.heading) * trig.cos(p.heading) + trig.sin(p.heading) * trig.sin(p.heading) == 1.0
    requires trig.cos(p.angle) * trig.cos(p.angle) + trig.sin(p.angle) * trig.sin(p.angle) == 1.0
    ensures var v := Launch(p, trig).speed;
            v.x * v.x + v.y * v.y + v.z * v.z == PROJECTILE_SPEED * PROJECTILE_SPEED
  {
    var ch, sh := trig.cos(p.heading), trig.sin(p.heading);
    var h := trig.cos(p.angle) * PROJECTILE_SPEED;
    var vz := trig.sin(p.angle) * PROJECTILE_SPEED;
    calc {
      (ch * h) * (ch * h) + (sh * h) * (sh * h);
      (ch * ch + sh * sh) * (h * h);
      h * h;
    }
    calc {
      h * h + vz * vz;
      (trig.cos(p.angle) * trig.cos(p.angle) + trig.sin(p.angle) * trig.sin(p.angle))
        * (PROJECTILE_SPEED * PROJECTILE_SPEED);
      PROJECTILE_SPEED * PROJECTILE_SPEED;
    }
  }

  /** The horizontal part of the launch velocity points along the heading. */
  lemma LaunchAlongHeading(p: Projectile, trig: Trig)
    ensures var v := Launch(p, trig).speed;
            v.x * trig.sin(p.heading) == v.y * trig.cos(p.heading)
  {
    var c := trig.cos(p.angle) * PROJECTILE_SPEED;
    assert trig.cos(p.heading) * c * trig.sin(p.heading) == trig.sin(p.heading) * c * trig.cos(p.heading);
  }

  /**
   * One slot of updateProjectiles. A landed projectile is left alone; an
   * airborne one first moves with its current velocity, then gravity slows
   * its climb.
   */
  function StepProjectile(p: Projectile, deltaT: real): (r: Projectile)
    ensures p.position.z <= 0.0 ==> r == p
    ensures p.position.z > 0.0 ==>
      r.position == Vec3(p.position.x + p.speed.x * deltaT,
                         p.position.y + p.speed.y * deltaT,
                         p.position.z + p.speed.z * deltaT)
    ensures p.position.z > 0.0 ==> r.speed == p.speed.(z := p.speed.z - GRAVITY * deltaT)
    ensures r.team == p.team && r.heading == p.heading && r.angle == p.angle
  {
    if p.position.z > 0.0 then
      var moved := p.(position := Vec3(p.position.x + p.speed.x * deltaT,
                                       p.position.y + p.speed.y * deltaT,
                                       p.position.z + p.speed.z * deltaT));
      moved.(speed := moved.speed.(z := moved.speed.z - GRAVITY * deltaT))
    else
      p
  }

  /** updateProjectiles: step the first `projectileCount` projectiles. */
  method UpdateProjectiles(projectiles: array<Projectile>, projectileCount: int, deltaT: real)
    requires projectileCount <= projectiles.Length
    modifies projectiles
    ensures forall k :: 0 <= k < projectiles.Length && k < projectileCount ==>
      projectiles[k] == StepProjectile(old(projectiles[k]), deltaT)
    ensures forall k :: 0 <= k < projectiles.Length && projectileCount <= k ==>
      projectiles[k] == old(projectiles[k])
  {
    var i := 0;
    while i < projectileCount
      invariant 0 <= i <= projectiles.Length && (i == 0 || i <= projectileCount)
      invariant forall k :: 0 <= k < i ==> projectiles[k] == StepProjectile(old(projectiles[k]), deltaT)
      invariant forall k :: i <= k < projectiles.Length ==> projectiles[k] == old(projectiles[k])
    {
      var projectile := projectiles[i];
      if projectiles[i].position.z > 0.0 {
        projectiles[i] := projectiles[i].(position := Vec3(projectile.position.x + projectile.speed.x * deltaT,
                                                           projectile.position.y + projectile.speed.y * deltaT,
                                                           projectile.position.z + projectile.speed.z * deltaT));
        projectiles[i] := projectiles[i].(speed := projectiles[i].speed.(z := projectiles[i].speed.z - GRAVITY * deltaT));
      }
      assert projectiles[i] == StepProjectile(old(projectiles[i]), deltaT);
      i := i + 1;
    }
  }

  /** A projectile after `n` frames of the same `deltaT`. */
  function Fly(p: Projectile, deltaT: real, n: nat): Projectile
  {
    if n == 0 then p else StepProjectile(Fly(p, deltaT, n - 1), deltaT)
  }

  /**
   * The height after `n` airborne frames. With t = n * deltaT it is
   * z0 + vz * t - G * t * (t - deltaT) / 2: the continuous parabola
   * z0 + vz * t - G * t^2 / 2 plus G * t * deltaT / 2, because each frame
   * moves with the speed from before gravity is applied.
   */
  function EulerHeight(p: Projectile, deltaT: real, n: nat): real
  {
    var t := (n as real) * deltaT;
    p.position.z + p.speed.z * t - GRAVITY * t * (t - deltaT) / 2.0
  }

  /**
   * Where `n` airborne frames take a projectile: linearly in x and y, along
   * EulerHeight in z, with n * G * deltaT taken off its vertical speed.
   */
  function Ballistic(p: Projectile, deltaT: real, n: nat): Projectile
  {
    var t := (n as real) * deltaT;
    p.(position := Vec3(p.position.x + p.speed.x * t, p.position.y + p.speed.y * t, EulerHeight(p, deltaT, n)),
       speed := p.speed.(z := p.speed.z - GRAVITY * t))
  }

  /**
   * As long as the projectile is in the air before each of `n` frames, the
   * frames take it exactly where Ballistic says; the other fields never
   * change.
   */
  lemma {:induction false} AirborneTrajectory(p: Projectile, deltaT: real, n: nat)
    requires forall k :: 0 <= k < n ==> EulerHeight(p, deltaT, k) > 0.0
    ensures Fly(p, deltaT, n) == Ballistic(p, deltaT, n)
  {
    if n == 0 {
      assert (n as real) * deltaT == 0.0;
    } else {
      AirborneTrajectory(p, deltaT, n - 1);
      assert EulerHeight(p, deltaT, n - 1) > 0.0;
      BallisticStep(p, deltaT, n);
    }
  }

  /** One airborne frame takes Ballistic from n - 1 frames to n frames. */
  lemma BallisticStep(p: Projectile, deltaT: real, n: nat)
    requires n > 0 && EulerHeight(p, deltaT, n - 1) > 0.0
    ensures StepProjectile(Ballistic(p, deltaT, n - 1), deltaT) == Ballistic(p, deltaT, n)
  {
    var t := ((n - 1) as real) * deltaT;
    var t1 := (n as real) * deltaT;
    ElapsedStep(n, deltaT);
    var q := Ballistic(p, deltaT, n - 1);
    var b := Ballistic(p, deltaT, n);
    assert q.position == Vec3(p.position.x + p.speed.x * t, p.position.y + p.speed.y * t, EulerHeight(p, deltaT, n - 1));
    assert q.speed == p.speed.(z := p.speed.z - GRAVITY * t);
    assert b.position == Vec3(p.position.x + p.speed.x * t1, p.position.y + p.speed.y * t1, EulerHeight(p, deltaT, n));
    assert b.speed == p.speed.(z := p.speed.z - GRAVITY * t1);
    var r := StepProjectile(q, deltaT);
    assert r.position == Vec3(q.position.x + p.speed.x * deltaT, q.position.y + p.speed.y * deltaT,
                              q.position.z + q.speed.z * deltaT);
    LinearStep(p.position.x, p.speed.x, t, t1, deltaT);
    LinearStep(p.position.y, p.speed.y, t, t1, deltaT);
    EulerStep(p.position.z, p.speed.z, t, t1, deltaT);
    assert EulerHeight(p, deltaT, n - 1) == p.position.z + p.speed.z * t - GRAVITY * t * (t - deltaT) / 2.0;
    assert EulerHeight(p, deltaT, n) == p.position.z + p.speed.z * t1 - GRAVITY * t1 * (t1 - deltaT) / 2.0;
  }

  /** n frames last one frame longer than n - 1 frames. */
  lemma ElapsedStep(n: nat, deltaT: real)
    requires n > 0
    ensures (n as real) * deltaT == ((n - 1) as real) * deltaT + deltaT
  {
    var m := (n - 1) as real;
    assert n as real == m + 1.0;
    assert (m + 1.0) * deltaT == m * deltaT + deltaT;
  }

  /** One frame of uniform motion along one axis, from time t to t1 = t + deltaT. */
  lemma LinearStep(x0: real, v: real, t: real, t1: real, deltaT: real)
    requires t1 == t + deltaT
    ensures x0 + v * t + v * deltaT == x0 + v * t1
  {
  }

  /**
   * One frame of EulerHeight, from time t to t1 = t + deltaT: move with the
   * old vertical speed, then apply gravity.
   */
  lemma EulerStep(z0: real, vz: real, t: real, t1: real, deltaT: real)
    requires t1 == t + deltaT
    ensures (z0 + vz * t - GRAVITY * t * (t - deltaT) / 2.0) + (vz - GRAVITY * t) * deltaT
         == z0 + vz * t1 - GRAVITY * t1 * (t1 - deltaT) / 2.0
  {
    assert vz * (t + deltaT) == vz * t + vz * deltaT;
    assert (vz - GRAVITY * t) * deltaT == vz * deltaT - GRAVITY * (t * deltaT);
    assert t * (t - deltaT) == t * t - t * deltaT;
    assert (t + deltaT) * t == t * t + t * deltaT;
  }

  /** A projectile at or below the water stays exactly as it is, frame after frame. */
  lemma {:induction false} LandedStaysPut(p: Projectile, deltaT: real, n: nat)
    requires p.position.z <= 0.0
    ensures Fly(p, deltaT, n) == p
  {
    if n > 0 {
      LandedStaysPut(p, deltaT, n - 1);
    }
  }

  /**
   * A projectile that is not climbing never climbs later and never gets
   * above its starting height (forward time only).
   */
  lemma {:induction false} NeverRisesWhileFalling(p: Projectile, deltaT: real, n: nat)
    requires p.speed.z <= 0.0 && deltaT >= 0.0
    ensures Fly(p, deltaT, n).speed.z <= 0.0
    ensures Fly(p, deltaT, n).position.z <= p.position.z
  {
    if n > 0 {
      NeverRisesWhileFalling(p, deltaT, n - 1);
      var q := Fly(p, deltaT, n - 1);
      if q.position.z > 0.0 {
        NonPositiveTimesNonNegative(q.speed.z, deltaT);
      }
    }
  }

  /** The sign fact the falling argument needs. */
  lemma NonPositiveTimesNonNegative(a: real, b: real)
    requires a <= 0.0 && b >= 0.0
    ensures a * b <= 0.0
  {
  }

  /** A shot fired flat never rises above the height it was fired from. */
  lemma FlatShotNeverRises(p: Projectile, deltaT: real, n: nat, trig: Trig)
    requires p.angle == 0.0 && trig.sin(0.0) == 0.0 && deltaT >= 0.0
    ensures Fly(Launch(p, trig), deltaT, n).position.z <= p.position.z
  {
    NeverRisesWhileFalling(Launch(p, trig), deltaT, n);
  }
}
