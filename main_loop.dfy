/**
 * The game loop of main.c: the fixed table of eight island obstacles, the
 * ship-versus-obstacle scan, and the per-frame update of the single
 * player ship. Texture loading, drawing and the camera are not modelled;
 * the mouse-driven heading is an input of the frame.
 */
module ShipBattle {
  import opened Vectors
  import opened Entities
  import opened GameCalculations

  datatype Option<T> = None | Some(value: T)

  /** Size of the global obstacle table. */
  const MAX_OBSTACLES: int := 8

  /** Side of the square the ship occupies for collision purposes. */
  const SHIP_BOX: real := 100.0

  /** raylib's Rectangle: top-left corner, width and height. */
  datatype Rect = Rect(x: real, y: real, width: real, height: real)

  /**
   * raylib's CheckCollisionRecs: the two rectangles overlap with positive
   * area on both axes (touching edges do not count).
   */
  predicate CheckCollisionRecs(a: Rect, b: Rect)
  {
    a.x < b.x + b.width && a.x + a.width > b.x &&
    a.y < b.y + b.height && a.y + a.height > b.y
  }

  /** An island: its top-left corner and integer size (its texture is not modelled). */
  datatype Obstacle = Obstacle(position: Vec2, width: int, height: int)
  {
    function Bounds(): Rect
    {
      Rect(position.x, position.y, width as real, height as real)
    }
  }

  /** The ship's collision box: 100 x 100 with its top-left corner at the position. */
  function ShipRect(position: Vec2): Rect
  {
    Rect(position.x, position.y, SHIP_BOX, SHIP_BOX)
  }

  /** An obstacle slot before initObstacles runs (C zero-initialises globals). */
  const EMPTY_OBSTACLE: Obstacle := Obstacle(Vec2(0.0, 0.0), 0, 0)

  /** The eight islands initObstacles places. */
  const OBSTACLE_TABLE: seq<Obstacle> := [
    Obstacle(Vec2(200.0, 100.0), 160, 100),
    Obstacle(Vec2(600.0, 750.0), 50, 50),
    Obstacle(Vec2(700.0, 70.0), 50, 200),
    Obstacle(Vec2(200.0, 500.0), 200, 50),
    Obstacle(Vec2(1500.0, 600.0), 120, 70),
    Obstacle(Vec2(1150.0, 120.0), 200, 50),
    Obstacle(Vec2(1050.0, 700.0), 200, 70),
    Obstacle(Vec2(1500.0, 300.0), 200, 50)
  ]

  /**
   * The index order scan: the first obstacle at or after `i` whose bounds
   * overlap `box`, if any.
   */
  function FirstOverlapFrom(obstacles: seq<Obstacle>, box: Rect, i: nat): (r: Option<nat>)
    requires i <= |obstacles|
    decreases |obstacles| - i
    ensures r.Some? ==> i <= r.value < |obstacles| && CheckCollisionRecs(box, obstacles[r.value].Bounds())
    ensures r.Some? ==> forall j :: i <= j < r.value ==> !CheckCollisionRecs(box, obstacles[j].Bounds())
    ensures r.None? ==> forall j :: i <= j < |obstacles| ==> !CheckCollisionRecs(box, obstacles[j].Bounds())
  {
    if i == |obstacles| then None
    else if CheckCollisionRecs(box, obstacles[i].Bounds()) then Some(i)
    else FirstOverlapFrom(obstacles, box, i + 1)
  }

  /**
   * checkCollision's answer for a ship at `position`: 0 when the scan finds
   * an overlapping obstacle, 1 when it finds none. Only the position is an
   * input: heading, speed, team and isAlive play no part.
   */
  function CollisionFlag(obstacles: seq<Obstacle>, position: Vec2): (r: int)
    ensures r == 0 || r == 1
    ensures r == 0 <==> exists i :: 0 <= i < |obstacles| && CheckCollisionRecs(ShipRect(position), obstacles[i].Bounds())
  {
    if FirstOverlapFrom(obstacles, ShipRect(position), 0).Some? then 0 else 1
  }

  /**
   * The scan stops at the first hit: two tables that agree up to an
   * overlapping obstacle `k` give the same first hit, whatever follows `k`.
   */
  lemma {:induction false} LaterObstaclesIrrelevant(a: seq<Obstacle>, b: seq<Obstacle>, box: Rect, i: nat, k: nat)
    requires i <= k < |a| && k < |b|
    requires forall j :: i <= j <= k ==> a[j] == b[j]
    requires CheckCollisionRecs(box, a[k].Bounds())
    decreases k - i
    ensures FirstOverlapFrom(a, box, i) == FirstOverlapFrom(b, box, i)
    ensures FirstOverlapFrom(a, box, i).Some? && FirstOverlapFrom(a, box, i).value <= k
  {
    if !CheckCollisionRecs(box, a[i].Bounds()) {
      LaterObstaclesIrrelevant(a, b, box, i + 1, k);
    }
  }

  /** The table that main.c keeps in its global `obstacles` array. */
  class World {
    var obstacles: array<Obstacle>

    ghost predicate Valid()
      reads this
    {
      obstacles.Length == MAX_OBSTACLES
    }

    /** The program's start: eight zeroed obstacle slots. */
    constructor ()
      ensures Valid() && fresh(obstacles)
      ensures obstacles[..] == seq(MAX_OBSTACLES, _ => EMPTY_OBSTACLE)
    {
      obstacles := new Obstacle[MAX_OBSTACLES](_ => EMPTY_OBSTACLE);
    }

    /** initObstacles: every slot receives its fixed position and size. */
    method InitObstacles()
      requires Valid()
      modifies obstacles
      ensures Valid()
      ensures obstacles[..] == OBSTACLE_TABLE
    {
      obstacles[0] := Obstacle(Vec2(200.0, 100.0), 160, 100);
      obstacles[1] := Obstacle(Vec2(600.0, 750.0), 50, 50);
      obstacles[2] := Obstacle(Vec2(700.0, 70.0), 50, 200);
      obstacles[3] := Obstacle(Vec2(200.0, 500.0), 200, 50);
      obstacles[4] := Obstacle(Vec2(1500.0, 600.0), 120, 70);
      obstacles[5] := Obstacle(Vec2(1150.0, 120.0), 200, 50);
      obstacles[6] := Obstacle(Vec2(1050.0, 700.0), 200, 70);
      obstacles[7] := Obstacle(Vec2(1500.0, 300.0), 200, 50);
    }

    /**
     * checkCollision: scan the table in index order and answer 0 at the
     * first obstacle overlapping the ship's box, 1 if none does. The ship is
     * a value and nothing is modified.
     */
    method CheckCollision(ship: Ship) returns (r: int)
      requires Valid()
      ensures r == 0 <==>
        exists i :: 0 <= i < MAX_OBSTACLES && CheckCollisionRecs(ShipRect(ship.position), obstacles[i].Bounds())
      ensures r == CollisionFlag(obstacles[..], ship.position)
    {
      var shipRect := ShipRect(ship.position);
      var i := 0;
      while i < MAX_OBSTACLES
        invariant 0 <= i <= MAX_OBSTACLES
        invariant forall j :: 0 <= j < i ==> !CheckCollisionRecs(shipRect, obstacles[j].Bounds())
      {
        var obstacleRect := obstacles[i].Bounds();
        if CheckCollisionRecs(shipRect, obstacleRect) {
          return 0;
        }
        i := i + 1;
      }
      return 1;
    }

    /**
     * One pass of main's loop over ships[0]: move it, point it at the mouse
     * (`mouseHeading`), then overwrite isAlive with the collision answer for
     * the moved position.
     */
    method Frame(ships: array<Ship>, deltaT: real, mouseHeading: real, trig: Trig)
      requires Valid() && ships.Length >= 1
      modifies ships
      ensures ships[0] == FrameShip(old(ships[0]), obstacles[..], deltaT, mouseHeading, trig)
      ensures forall k :: 1 <= k < ships.Length ==> ships[k] == old(ships[k])
    {
      UpdateShipPositions(ships, 1, deltaT, trig);
      ships[0] := ships[0].(heading := mouseHeading);
      var ship := ships[0];
      var alive := CheckCollision(ship);
      ships[0] := ships[0].(isAlive := alive);
    }
  }

  /** What one frame does to the player ship. */
  function FrameShip(s: Ship, obstacles: seq<Obstacle>, deltaT: real, mouseHeading: real, trig: Trig): (r: Ship)
    ensures r.position == MoveShip(s, deltaT, trig).position
    ensures r.distanceMoved == MoveShip(s, deltaT, trig).distanceMoved
    ensures r.heading == mouseHeading && r.team == s.team && r.speed == s.speed
    ensures r.isAlive == 0 || r.isAlive == 1
    ensures r.isAlive == 1 <==>
      forall i :: 0 <= i < |obstacles| ==> !CheckCollisionRecs(ShipRect(r.position), obstacles[i].Bounds())
  {
    var moved := MoveShip(s, deltaT, trig).(heading := mouseHeading);
    moved.(isAlive := CollisionFlag(obstacles, moved.position))
  }

  /**
   * isAlive is recomputed every frame, so it is not monotonic: a dead ship
   * is alive again as soon as it clears every obstacle.
   */
  lemma AliveIsRecomputed(s: Ship, obstacles: seq<Obstacle>, deltaT: real, mouseHeading: real, trig: Trig)
    requires forall i :: 0 <= i < |obstacles| ==>
      !CheckCollisionRecs(ShipRect(MoveShip(s, deltaT, trig).position), obstacles[i].Bounds())
    ensures FrameShip(s, obstacles, deltaT, mouseHeading, trig).isAlive == 1
  {
  }

  /** A ship at main's start position clears every island. */
  lemma StartPositionIsClear()
    ensures CollisionFlag(OBSTACLE_TABLE, Vec2(1000.0, 500.0)) == 1
  {
    var box := ShipRect(Vec2(1000.0, 500.0));
    forall i | 0 <= i < |OBSTACLE_TABLE|
      ensures !CheckCollisionRecs(box, OBSTACLE_TABLE[i].Bounds())
    {
    }
  }

  /** A ship whose box reaches into island 6 collides. */
  lemma IslandSixBlocks()
    ensures CollisionFlag(OBSTACLE_TABLE, Vec2(1000.0, 650.0)) == 0
  {
    assert CheckCollisionRecs(ShipRect(Vec2(1000.0, 650.0)), OBSTACLE_TABLE[6].Bounds());
  }

  /**
   * Concretely: a dead, stationary ship at main's start position is alive
   * again after one frame, whatever the time step, heading and trigonometry.
   */
  lemma DeadShipRevived(deltaT: real, mouseHeading: real, trig: Trig)
    ensures var s := Ship(0, Vec2(1000.0, 500.0), 0.0, 0.0, 0, Vec2(0.0, 0.0));
            s.isAlive == 0 && FrameShip(s, OBSTACLE_TABLE, deltaT, mouseHeading, trig).isAlive == 1
  {
    var s := Ship(0, Vec2(1000.0, 500.0), 0.0, 0.0, 0, Vec2(0.0, 0.0));
    assert MoveShip(s, deltaT, trig).position == s.position;
    StartPositionIsClear();
  }
}
