/** The spawn routines. An instantiation is returned as an `Instance`; the
    caller appends the returned instances to the scene. Indexing an empty
    prototype array is the engine's out-of-range error and surfaces as a
    `Failure`; so does a soul lookup that finds nothing. */
module Spawning {
  import opened Common
  import opened SpawnPlacement

  /** A prefab: its identity and its default orientation. */
  datatype Prototype = Prototype(id: nat, rotation: Rotation)

  /** The souls' colour tags (the game's soul colour enumeration). */
  type SoulColor = string

  datatype SoulPrototype = SoulPrototype(prefab: Prototype, color: SoulColor)

  /** One `Instantiate(prefab, position, rotation)`. */
  datatype Instance = Instance(prefab: Prototype, position: Vec3, rotation: Rotation)

  datatype SpawnError =
    | IndexOutOfRange            // an empty prototype or position array was indexed
    | NoSoulWithColor(color: SoulColor)

  /** The spawn manager's prototype arrays and placement constants. */
  datatype SpawnConfig = SpawnConfig(
    amountLaunchObjectToSpawn: int,
    powerupSpawningHeight: real,
    enemies: seq<Prototype>,
    powerups: seq<Prototype>,
    launchObjects: seq<Prototype>,
    souls: seq<SoulPrototype>,
    powerupVFX: seq<Prototype>,
    enemySpawnPositions: seq<Vec3>)

  /** The downward offset of a soul below its enemy. */
  const SoulDropHeight: real := 0.2

  /** Instantiate with the prefab's own orientation. */
  function Spawn(prefab: Prototype, position: Vec3): Instance
  {
    Instance(prefab, position, prefab.rotation)
  }

  /** SpawnEnemy: a drawn enemy at a drawn one of the fixed spawn points. */
  function SpawnEnemy(cfg: SpawnConfig, enemyDraw: int, positionDraw: int): (r: Result<Instance, SpawnError>)
    requires IndexDraw(enemyDraw, |cfg.enemies|) && IndexDraw(positionDraw, |cfg.enemySpawnPositions|)
    ensures r.Success? <==> |cfg.enemies| > 0 && |cfg.enemySpawnPositions| > 0
    ensures r.Failure? ==> r.error == IndexOutOfRange
    ensures r.Success? ==>
      && r.value.prefab in cfg.enemies
      && r.value.position in cfg.enemySpawnPositions
      && r.value.rotation == r.value.prefab.rotation
      && r.value.prefab == cfg.enemies[enemyDraw]
      && r.value.position == cfg.enemySpawnPositions[positionDraw]
  {
    if |cfg.enemySpawnPositions| == 0 || |cfg.enemies| == 0 then Failure(IndexOutOfRange)
    else Success(Spawn(cfg.enemies[enemyDraw], cfg.enemySpawnPositions[positionDraw]))
  }

  /** SpawnPowerup: a drawn powerup at a drawn point of the arena. */
  function SpawnPowerup(cfg: SpawnConfig, a: Arena, powerupDraw: int, xDraw: real, zDraw: real): (r: Result<Instance, SpawnError>)
    requires IndexDraw(powerupDraw, |cfg.powerups|)
    requires Between(xDraw, a.leftX, a.rightX) && Between(zDraw, a.lowerZ, a.upperZ)
    ensures r.Success? <==> |cfg.powerups| > 0
    ensures r.Failure? ==> r.error == IndexOutOfRange
    ensures r.Success? ==>
      && r.value.prefab == cfg.powerups[powerupDraw]
      && r.value.rotation == r.value.prefab.rotation
      && r.value.position == PowerupPosition(a, cfg.powerupSpawningHeight, xDraw, zDraw)
      && r.value.position.y == a.groundY + cfg.powerupSpawningHeight
      && (a.WellFormed() ==> InArena(a, r.value.position))
  {
    if |cfg.powerups| == 0 then Failure(IndexOutOfRange)
    else Success(Spawn(cfg.powerups[powerupDraw], PowerupPosition(a, cfg.powerupSpawningHeight, xDraw, zDraw)))
  }

  /** The draws made for one launch object: prototype index, edge, coordinate along the edge. */
  datatype LaunchDraw = LaunchDraw(index: int, edge: int, coord: real)

  predicate ValidLaunchDraw(cfg: SpawnConfig, a: Arena, d: LaunchDraw)
  {
    IndexDraw(d.index, |cfg.launchObjects|) && 0 <= d.edge < 4 && CoordDraw(a, d.edge, d.coord)
  }

  /** How many launch objects one firing creates: the loop runs zero times for a
      count that is not positive. */
  function LaunchCount(amount: int): (n: nat)
    ensures amount > 0 ==> n == amount
    ensures amount <= 0 ==> n == 0
  {
    if amount > 0 then amount else 0
  }

  /** `inst` is the launch object the draws `d` produce: the drawn prototype, with
      its own orientation, at the drawn border position. */
  predicate LaunchedFrom(cfg: SpawnConfig, a: Arena, playerScaleY: real, d: LaunchDraw, inst: Instance)
  {
    && ValidLaunchDraw(cfg, a, d)
    && 0 <= d.index < |cfg.launchObjects|
    && inst.prefab == cfg.launchObjects[d.index]
    && inst.rotation == inst.prefab.rotation
    && inst.position == LaunchObjectPosition(a, playerScaleY, d.edge, d.coord)
  }

  /** SpawnLaunchObject: one firing creates `amountLaunchObjectToSpawn` launch
      objects, each from its own draws. */
  method SpawnLaunchObject(cfg: SpawnConfig, a: Arena, playerScaleY: real, draws: seq<LaunchDraw>)
    returns (r: Result<seq<Instance>, SpawnError>)
    requires |draws| == LaunchCount(cfg.amountLaunchObjectToSpawn)
    requires forall k :: 0 <= k < |draws| ==> ValidLaunchDraw(cfg, a, draws[k])
    ensures r.Failure? <==> |draws| > 0 && |cfg.launchObjects| == 0
    ensures r.Failure? ==> r.error == IndexOutOfRange
    ensures r.Success? ==>
      && |r.value| == |draws| == LaunchCount(cfg.amountLaunchObjectToSpawn)
      && (forall k :: 0 <= k < |draws| ==> LaunchedFrom(cfg, a, playerScaleY, draws[k], r.value[k]))
      && (a.WellFormed() ==> forall k :: 0 <= k < |draws| ==>
            OnPerimeter(a, r.value[k].position) && r.value[k].position.y == playerScaleY)
  {
    var spawned: seq<Instance> := [];
    var i := 0;
    while i < |draws|
      invariant 0 <= i <= |draws|
      invariant |spawned| == i
      invariant i > 0 ==> |cfg.launchObjects| > 0
      invariant forall k :: 0 <= k < i ==> LaunchedFrom(cfg, a, playerScaleY, draws[k], spawned[k])
      invariant a.WellFormed() ==> forall k :: 0 <= k < i ==>
        OnPerimeter(a, spawned[k].position) && spawned[k].position.y == playerScaleY
    {
      var d := draws[i];
      if |cfg.launchObjects| == 0 {
        return Failure(IndexOutOfRange);
      }
      var position := LaunchObjectPosition(a, playerScaleY, d.edge, d.coord);
      if a.WellFormed() {
        LaunchObjectOnPerimeter(a, playerScaleY, d.edge, d.coord);
      }
      spawned := spawned + [Spawn(cfg.launchObjects[d.index], position)];
      i := i + 1;
    }
    return Success(spawned);
  }

  /** The position of the first soul in `souls` whose colour is `color`. */
  function FirstSoulIndex(souls: seq<SoulPrototype>, color: SoulColor): (r: Option<nat>)
    ensures r.None? <==> forall i :: 0 <= i < |souls| ==> souls[i].color != color
    ensures r.Some? ==>
      && r.value < |souls|
      && souls[r.value].color == color
      && forall j :: 0 <= j < r.value ==> souls[j].color != color
    decreases |souls|
  {
    if |souls| == 0 then None
    else if souls[0].color == color then Some(0)
    else
      match FirstSoulIndex(souls[1..], color)
      case None => None
      case Some(i) => Some(i + 1)
  }

  /** FindSoulByColor: the first soul of the requested colour, or nothing. */
  function FindSoulByColor(souls: seq<SoulPrototype>, color: SoulColor): (r: Option<SoulPrototype>)
    ensures r.None? <==> forall i :: 0 <= i < |souls| ==> souls[i].color != color
    ensures r.Some? ==> r.value in souls && r.value.color == color
    ensures r.Some? ==> exists i :: 0 <= i < |souls| && souls[i] == r.value
                                 && (forall j :: 0 <= j < i ==> souls[j].color != color)
  {
    match FirstSoulIndex(souls, color)
    case None => None
    case Some(i) => Some(souls[i])
  }

  /** With exactly one soul of the colour, that soul is the one found. */
  lemma FindSoulByColorUnique(souls: seq<SoulPrototype>, color: SoulColor, i: nat)
    requires i < |souls| && souls[i].color == color
    requires forall j :: 0 <= j < |souls| && j != i ==> souls[j].color != color
    ensures FindSoulByColor(souls, color) == Some(souls[i])
  {
  }

  /** SpawnEnemySoul: the soul of the enemy's colour, just below the enemy; an
      error when the catalogue has no soul of that colour. */
  function SpawnEnemySoul(souls: seq<SoulPrototype>, enemyPosition: Vec3, color: SoulColor): (r: Result<Instance, SpawnError>)
    ensures r.Failure? <==> forall i :: 0 <= i < |souls| ==> souls[i].color != color
    ensures r.Failure? ==> r.error == NoSoulWithColor(color)
    ensures r.Success? ==>
      && FindSoulByColor(souls, color).Some?
      && r.value.prefab == FindSoulByColor(souls, color).value.prefab
      && r.value.position == Vec3(enemyPosition.x, enemyPosition.y - SoulDropHeight, enemyPosition.z)
      && r.value.rotation == r.value.prefab.rotation
      && exists i :: 0 <= i < |souls| && souls[i].color == color && r.value.prefab == souls[i].prefab
  {
    var position := Vec3(enemyPosition.x, enemyPosition.y - SoulDropHeight, enemyPosition.z);
    match FindSoulByColor(souls, color)
    case Some(soul) => Success(Spawn(soul.prefab, position))
    case None => Failure(NoSoulWithColor(color))
  }

  /** SpawnPowerupVFX: every configured effect, in order, at the given position. */
  method SpawnPowerupVFX(powerupVFX: seq<Prototype>, position: Vec3) returns (r: seq<Instance>)
    ensures |r| == |powerupVFX|
    ensures forall i :: 0 <= i < |r| ==>
      r[i].prefab == powerupVFX[i] && r[i].position == position && r[i].rotation == powerupVFX[i].rotation
  {
    r := [];
    var i := 0;
    while i < |powerupVFX|
      invariant 0 <= i <= |powerupVFX|
      invariant |r| == i
      invariant forall k :: 0 <= k < i ==>
        r[k].prefab == powerupVFX[k] && r[k].position == position && r[k].rotation == powerupVFX[k].rotation
    {
      r := r + [Spawn(powerupVFX[i], position)];
      i := i + 1;
    }
  }
}
