/** StartAllSpawns / StopAllSpawns. Each repeating invocation the spawn manager
    registers is one entry of a schedule; when and how often an entry fires is
    the engine's business and is not modelled. */
module SpawnSchedule {

  datatype Category = Enemies | Powerups | LaunchObjects

  /** The scheduling part of the spawn manager's configuration. */
  datatype ScheduleConfig = ScheduleConfig(
    spawnEnemies: bool,
    spawnPowerups: bool,
    spawnLaunchObjects: bool,
    enemySpawnTime: real,
    powerupSpawnTime: real,
    launchObjectSpawnTime: real,
    spawnStartDelay: real)

  /** One repeating invocation: which spawn routine, first delay, repeat interval. */
  datatype Registration = Registration(category: Category, delay: real, interval: real)

  function Enabled(cfg: ScheduleConfig, c: Category): bool
  {
    match c
    case Enemies => cfg.spawnEnemies
    case Powerups => cfg.spawnPowerups
    case LaunchObjects => cfg.spawnLaunchObjects
  }

  function Interval(cfg: ScheduleConfig, c: Category): real
  {
    match c
    case Enemies => cfg.enemySpawnTime
    case Powerups => cfg.powerupSpawnTime
    case LaunchObjects => cfg.launchObjectSpawnTime
  }

  /** True when some entry of the schedule spawns category `c`. */
  predicate Schedules(schedule: seq<Registration>, c: Category)
  {
    exists i :: 0 <= i < |schedule| && schedule[i].category == c
  }

  /** StartAllSpawns: appends one registration per enabled category, in the order
      enemies, powerups, launch objects. Entries already present are kept (a second
      start registers the same routines again). */
  function StartAllSpawns(cfg: ScheduleConfig, schedule: seq<Registration>): (r: seq<Registration>)
    ensures |schedule| <= |r| && r[..|schedule|] == schedule
    ensures |r| - |schedule| ==
      (if cfg.spawnEnemies then 1 else 0) + (if cfg.spawnPowerups then 1 else 0)
      + (if cfg.spawnLaunchObjects then 1 else 0)
    ensures forall i :: |schedule| <= i < |r| ==>
      Enabled(cfg, r[i].category)
      && r[i].delay == cfg.spawnStartDelay
      && r[i].interval == Interval(cfg, r[i].category)
    ensures forall c: Category :: Enabled(cfg, c) ==>
      Registration(c, cfg.spawnStartDelay, Interval(cfg, c)) in r[|schedule|..]
  {
    var added :=
      (if cfg.spawnEnemies then [Registration(Enemies, cfg.spawnStartDelay, cfg.enemySpawnTime)] else [])
    + (if cfg.spawnPowerups then [Registration(Powerups, cfg.spawnStartDelay, cfg.powerupSpawnTime)] else [])
    + (if cfg.spawnLaunchObjects then [Registration(LaunchObjects, cfg.spawnStartDelay, cfg.launchObjectSpawnTime)] else []);
    assert (schedule + added)[|schedule|..] == added;
    schedule + added
  }

  /** StopAllSpawns: cancels every registration. */
  function StopAllSpawns(schedule: seq<Registration>): (r: seq<Registration>)
    ensures forall c: Category :: !Schedules(r, c)
  {
    []
  }

  /** Starting from an empty schedule, a category is scheduled iff its flag is set;
      after a stop, nothing is. */
  lemma StartSchedulesExactlyEnabled(cfg: ScheduleConfig, c: Category)
    ensures Schedules(StartAllSpawns(cfg, []), c) <==> Enabled(cfg, c)
    ensures !Schedules(StopAllSpawns(StartAllSpawns(cfg, [])), c)
  {
  }
}
