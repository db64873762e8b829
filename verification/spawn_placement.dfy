/** Where powerups and launch objects appear. The arena is given by the
    environment's limit transforms; random draws are parameters whose ranges
    are those of the engine's `Random.Range`. */
module SpawnPlacement {
  import opened Common

  /** The x of the left and right limits, the z of the lower and upper limits and
      the y of the ground. */
  datatype Arena = Arena(leftX: real, rightX: real, lowerZ: real, upperZ: real, groundY: real)
  {
    predicate WellFormed()
    {
      leftX <= rightX && lowerZ <= upperZ
    }
  }

  /** The edge a launch object enters from, in the enum's declaration order. */
  datatype Edge = North | South | West | East

  /** The cast from the integer draw to the enum. */
  function EdgeOf(draw: int): (e: Edge)
    requires 0 <= draw < 4
    ensures draw == 0 <==> e == North
    ensures draw == 1 <==> e == South
    ensures draw == 2 <==> e == West
    ensures draw == 3 <==> e == East
  {
    if draw == 0 then North else if draw == 1 then South else if draw == 2 then West else East
  }

  /** True when `p` lies in the arena's horizontal rectangle. */
  predicate InArena(a: Arena, p: Vec3)
  {
    a.leftX <= p.x <= a.rightX && a.lowerZ <= p.z <= a.upperZ
  }

  /** True when `p` lies on the border of the arena's horizontal rectangle. */
  predicate OnPerimeter(a: Arena, p: Vec3)
  {
    InArena(a, p) && (p.x == a.leftX || p.x == a.rightX || p.z == a.lowerZ || p.z == a.upperZ)
  }

  /** GenerateSpawningPowerupPosition. */
  function PowerupPosition(a: Arena, powerupSpawningHeight: real, xDraw: real, zDraw: real): (r: Vec3)
    requires Between(xDraw, a.leftX, a.rightX) && Between(zDraw, a.lowerZ, a.upperZ)
    ensures a.WellFormed() ==> InArena(a, r)
    ensures Between(r.x, a.leftX, a.rightX) && Between(r.z, a.lowerZ, a.upperZ)
    ensures r.y == a.groundY + powerupSpawningHeight
    ensures r.x == xDraw && r.z == zDraw
  {
    Vec3(xDraw, a.groundY + powerupSpawningHeight, zDraw)
  }

  /** Every point of a well-formed arena at the spawning height is where some
      pair of draws places a powerup. */
  lemma PowerupAreaReachable(a: Arena, powerupSpawningHeight: real, p: Vec3)
    requires a.WellFormed() && InArena(a, p) && p.y == a.groundY + powerupSpawningHeight
    ensures exists x: real, z: real :: Between(x, a.leftX, a.rightX) && Between(z, a.lowerZ, a.upperZ)
                                    && PowerupPosition(a, powerupSpawningHeight, x, z) == p
  {
    assert PowerupPosition(a, powerupSpawningHeight, p.x, p.z) == p;
  }

  /** The range the second draw of a launch-object placement is taken from:
      along z for the west and east edges, along x for the others. */
  predicate CoordDraw(a: Arena, edgeDraw: int, coord: real)
    requires 0 <= edgeDraw < 4
  {
    match EdgeOf(edgeDraw)
    case West => Between(coord, a.lowerZ, a.upperZ)
    case East => Between(coord, a.lowerZ, a.upperZ)
    case North => Between(coord, a.leftX, a.rightX)
    case South => Between(coord, a.leftX, a.rightX)
  }

  /** GenerateSpawningLaunchObjectPosition: the branches are tested in the order
      West, North, East, and South is the remaining case. */
  function LaunchObjectPosition(a: Arena, playerScaleY: real, edgeDraw: int, coord: real): (r: Vec3)
    requires 0 <= edgeDraw < 4 && CoordDraw(a, edgeDraw, coord)
    ensures r.y == playerScaleY
    ensures EdgeOf(edgeDraw) == West ==> r.x == a.leftX && Between(r.z, a.lowerZ, a.upperZ)
    ensures EdgeOf(edgeDraw) == East ==> r.x == a.rightX && Between(r.z, a.lowerZ, a.upperZ)
    ensures EdgeOf(edgeDraw) == North ==> r.z == a.upperZ && Between(r.x, a.leftX, a.rightX)
    ensures EdgeOf(edgeDraw) == South ==> r.z == a.lowerZ && Between(r.x, a.leftX, a.rightX)
    ensures EdgeOf(edgeDraw) in {West, East} ==> r.z == coord
    ensures EdgeOf(edgeDraw) in {North, South} ==> r.x == coord
  {
    var e := EdgeOf(edgeDraw);
    if e == West then Vec3(a.leftX, playerScaleY, coord)
    else if e == North then Vec3(coord, playerScaleY, a.upperZ)
    else if e == East then Vec3(a.rightX, playerScaleY, coord)
    else Vec3(coord, playerScaleY, a.lowerZ)
  }

  /** In a well-formed arena every launch object starts on the border. */
  lemma LaunchObjectOnPerimeter(a: Arena, playerScaleY: real, edgeDraw: int, coord: real)
    requires a.WellFormed()
    requires 0 <= edgeDraw < 4 && CoordDraw(a, edgeDraw, coord)
    ensures OnPerimeter(a, LaunchObjectPosition(a, playerScaleY, edgeDraw, coord))
  {
  }

  /** Every point of the border is reachable: for each point on it there is a
      draw that places a launch object exactly there. */
  lemma {:induction false} PerimeterReachable(a: Arena, playerScaleY: real, p: Vec3)
    requires a.WellFormed() && OnPerimeter(a, p) && p.y == playerScaleY
    ensures exists d: int, c: real :: 0 <= d < 4 && CoordDraw(a, d, c) && LaunchObjectPosition(a, playerScaleY, d, c) == p
  {
    if p.x == a.leftX {
      assert CoordDraw(a, 2, p.z) && LaunchObjectPosition(a, playerScaleY, 2, p.z) == p;
    } else if p.x == a.rightX {
      assert CoordDraw(a, 3, p.z) && LaunchObjectPosition(a, playerScaleY, 3, p.z) == p;
    } else if p.z == a.upperZ {
      assert CoordDraw(a, 0, p.x) && LaunchObjectPosition(a, playerScaleY, 0, p.x) == p;
    } else {
      assert CoordDraw(a, 1, p.x) && LaunchObjectPosition(a, playerScaleY, 1, p.x) == p;
    }
  }
}
