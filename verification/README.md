# Knight Monsters Arena: player combat state and spawn coordination in Dafny

This project models the decision logic of two gameplay components of the arena game.

- **The player controller** covers:
  - the clamping `Life` setter;
  - the alternating vertical/diagonal attack;
  - defending;
  - movement gating and the walk/run speed tiers;
  - hits from enemies in contact and from launch objects;
  - the game-over request.
- **The spawn manager** covers:
  - starting and stopping the repeating spawns;
  - enemy, powerup and launch-object spawns;
  - the powerup and launch-object placement rules;
  - the soul lookup by colour;
  - the powerup visual effects.

The engine is replaced by explicit values:

- The animator's current state tag, the game manager's "game active" flag and the immunity flag are fields of an immutable `PlayerState`.
- Mouse and keyboard polling become parameters (`FrameInput`, the axis values, the shift key).
- What the controller asks of the animator, the HUD and the game manager comes back as a list of `Signal`s: attack and hit triggers, the health-bar percentage, game over, an immunity window, and destroying a launch object.
- Each random draw is a parameter. Its `requires` gives the range `Random.Range` can return:
  - for integers, `[0, n)`, or exactly 0 when the array is empty;
  - for floats, both ends inclusive, with the bounds in either order.
- Each `Instantiate` becomes an `Instance` value: the prefab, a position and the prefab's own rotation.
- Indexing an empty prefab array, and a soul lookup that finds nothing, return a `Failure`.
- Floats are modelled as `real`.

Modules:

- `Common` (common.dfy) holds vectors, rotations, `Option`/`Result`, and the draw ranges.
- `Player` (player.dfy) holds the state record, the setter, attacks, defending, hits and collisions.
- `PlayerMovement` (movement.dfy) holds `FixedUpdate` and `GetMovementSpeed`.
- `SpawnSchedule` (spawn_schedule.dfy) models start and stop as a list of repeating registrations.
- `SpawnPlacement` (spawn_placement.dfy) holds the arena and the two placement rules.
- `Spawning` (spawning.dfy) holds the spawn routines.

Life is not kept within `[0, maxLife]` by every operation:

- Both hit routines subtract the damage from the raw `life` field and bypass the clamping setter (Assets/Scripts/PlayerController.cs:203 and :218).
- Life can therefore become negative, and the HUD is then sent a negative percentage.
- `Player.HitCanLeaveLifeNegative` proves a concrete case: life 70, a hit of 80, life becomes -10 and the HUD gets -10%.

## Model

| member | source | states |
|---|---|---|
| Player.Initial | Assets/Scripts/PlayerController.cs:49-52 | A new player has full life (100 of 100), attacks vertically first, is neither defending nor immune, and carries the given game-active flag and animator tag |
| Player.SetLife | Assets/Scripts/PlayerController.cs:34-43 | The `Life` setter always stores a value in [0, maxLife]. A value already in range is stored unchanged; a negative one becomes 0 and one above maxLife becomes maxLife. No other field changes |
| Player.SetLifeIdempotent | Assets/Scripts/PlayerController.cs:38-42 | Assigning back the value the setter just stored changes nothing |
| Player.LifeInPercent | Assets/Scripts/PlayerController.cs:235-238 | The percentage times maxLife equals life times 100. It is 100 at full life and 0 at zero life, lies in [0,100] while life is in range, and is negative exactly when life is negative |
| Player.ChangeTypeAttack | Assets/Scripts/PlayerController.cs:151-161 | Switching the attack variant always changes it |
| Player.ChangeTypeAttackInvolution | Assets/Scripts/PlayerController.cs:151-161 | Switching the variant twice gives back the original |
| Player.AttackSignal | Assets/Scripts/PlayerController.cs:138-148 | An attack fires one of the two attack triggers: Attack1 exactly when the variant is Vertical |
| Player.AttackTypeAfterParity | Assets/Scripts/PlayerController.cs:49-68 | Starting from Vertical, after n successful attacks the variant is Vertical iff n is even |
| Player.AttackSeries | Assets/Scripts/PlayerController.cs:138-161 | n consecutive attacks fire n triggers that alternate, starting with the current variant's trigger. The variant left afterwards is the start variant switched n times |
| Player.Defend | Assets/Scripts/PlayerController.cs:164-169 | Defending sets the defending flag and changes nothing else |
| Player.StopDefending | Assets/Scripts/PlayerController.cs:172-177 | Stopping clears the defending flag and changes nothing else |
| Player.StopDefendingUndoesDefend | Assets/Scripts/PlayerController.cs:164-177 | Raising and then lowering the guard gives back a player that was not defending |
| Player.Update | Assets/Scripts/PlayerController.cs:61-80 | An attack fires iff all of these hold: game active, not recovering from death, click pressed, not running, not already attacking. It emits the current variant's trigger and switches the variant; otherwise nothing is emitted and the variant is kept. With the game active and no death recovery, holding defend sets the flag and a release without holding clears it. In every other case the flag is unchanged. Life, immunity, game flag and tag never change |
| Player.TwoAttacksRestoreVariant | Assets/Scripts/PlayerController.cs:65-68 | Two attacking frames restore the variant and fire different triggers |
| Player.GetHit | Assets/Scripts/PlayerController.cs:199-226 | While defending, recovering from death or with the game inactive, a hit changes nothing and emits nothing. Otherwise life drops by exactly the damage, with no lower clamp, and the HUD is sent the new percentage; a fatal hit emits only that update. The hit trigger fires iff the hit was not blocked and the new life is above 0 |
| Player.HitCanLeaveLifeNegative | Assets/Scripts/PlayerController.cs:203-204 | A hit of 80 on life 70 leaves life at -10 and sends -10% to the HUD |
| Player.HitsAccumulate | Assets/Scripts/PlayerController.cs:199-211 | Two unblocked hits take off exactly the sum of their damages |
| Player.OnCollisionEnter | Assets/Scripts/PlayerController.cs:272-278 | Touching an enemy while not immune requests one immunity window of the enemy's own length. Anything else requests nothing |
| Player.OnCollisionStay | Assets/Scripts/PlayerController.cs:280-293 | Enemy contact has an effect only when all three hold: enemy tag, player not immune, enemy attacking. Otherwise nothing changes and nothing is emitted. When they hold, the signals are exactly the hit's own (HUD update, then the hit trigger if life stays above 0), then game over iff life is then at or below 0, then the combat cooldown. Life changes only through an unblocked qualifying hit |
| Player.OnTriggerEnter | Assets/Scripts/PlayerController.cs:295-309 | Only a launch object has an effect. It applies the hit without looking at immunity. The signals are exactly the hit's own, then the destruction of the object, then game over iff life is then at or below 0, then the damage cooldown |
| Player.ImmunityGatesOnlyEnemies | Assets/Scripts/PlayerController.cs:280-309 | An immune player ignores enemy contact entirely. A launch object gives the same life and signals whether the player is immune or not |
| Player.GameOverRepeats | Assets/Scripts/PlayerController.cs:280-309 | Game over is not deduplicated. Once life is at or below 0, every further qualifying contact or launch-object hit requests it again, even one that defending blocks |
| Player.FirstStrikeScenario | Assets/Scripts/PlayerController.cs:280-293 | A fresh player struck for 30 ends with life 70. The signals are: the 70% bar update, the hit trigger, the combat cooldown; there is no game over |
| PlayerMovement.GetMovementSpeed | Assets/Scripts/PlayerController.cs:184-196 | With shift held the speed is twice movementSpeed and the run animation value is used. Without shift the speed is movementSpeed with the walking animation value |
| PlayerMovement.FixedUpdate | Assets/Scripts/PlayerController.cs:82-102 | The body stops iff at least one of these holds: game inactive, recovering from death, attacking, defending, getting hit, or both axis inputs zero. Otherwise it moves with the given axis inputs at the speed tier the shift key selects |
| PlayerMovement.FixedUpdateSpeed | Assets/Scripts/PlayerController.cs:84-101 | A gated frame has speed 0 and the idle animation value. A frame without input has speed 0. A moving frame runs at movementSpeed, or at twice that with shift held |
| PlayerMovement.MotionIgnoresCombatFields | Assets/Scripts/PlayerController.cs:84-92 | The movement decision does not depend on life, attack variant or immunity |
| SpawnSchedule.StartAllSpawns | Assets/Scripts/Gameplay/SpawnManager.cs:41-57 | Existing registrations are kept. Exactly one registration is appended per enabled category, and only for enabled categories. Each uses the common start delay and that category's own interval |
| SpawnSchedule.StopAllSpawns | Assets/Scripts/Gameplay/SpawnManager.cs:133-136 | After a stop, no category is scheduled |
| SpawnSchedule.StartSchedulesExactlyEnabled | Assets/Scripts/Gameplay/SpawnManager.cs:41-57 | From an empty schedule, a category is scheduled iff its flag is set. Stopping afterwards leaves nothing scheduled |
| SpawnPlacement.EdgeOf | Assets/Scripts/Gameplay/SpawnManager.cs:3 | The integer draw maps to the edge enum in declaration order: 0 North, 1 South, 2 West, 3 East |
| SpawnPlacement.PowerupPosition | Assets/Scripts/Gameplay/SpawnManager.cs:142-150 | x and z are the drawn values. x lies between the left and right limits and z between the lower and upper limits, so the point is inside a well-formed arena. y is the ground height plus the spawning height |
| SpawnPlacement.LaunchObjectPosition | Assets/Scripts/Gameplay/SpawnManager.cs:152-182 | The coordinate across the edge is pinned: West x = left, East x = right, North z = upper, South z = lower. The other horizontal coordinate is the drawn value and lies within its limits, and y is the player's vertical scale |
| SpawnPlacement.PowerupAreaReachable | Assets/Scripts/Gameplay/SpawnManager.cs:142-150 | Every point of a well-formed arena at the spawning height is produced by some valid pair of draws |
| SpawnPlacement.LaunchObjectOnPerimeter | Assets/Scripts/Gameplay/SpawnManager.cs:152-182 | In a well-formed arena every launch-object position lies on the border of the rectangle |
| SpawnPlacement.PerimeterReachable | Assets/Scripts/Gameplay/SpawnManager.cs:152-182 | Every border point at the player's scale height is produced by some valid pair of draws |
| Spawning.SpawnEnemy | Assets/Scripts/Gameplay/SpawnManager.cs:60-67 | Succeeds iff both the enemy and spawn-point arrays are non-empty, and otherwise fails with an index error. The instance is the drawn enemy at exactly the drawn spawn point, with the prefab's rotation |
| Spawning.SpawnPowerup | Assets/Scripts/Gameplay/SpawnManager.cs:70-76 | Succeeds iff there is a powerup prefab. The instance is the drawn prefab with its own rotation, at the powerup position of the drawn x and z: ground height plus the spawning height, inside a well-formed arena |
| Spawning.LaunchCount | Assets/Scripts/Gameplay/SpawnManager.cs:81 | A firing makes the configured count of launch objects, or none when the count is not positive |
| Spawning.SpawnLaunchObject | Assets/Scripts/Gameplay/SpawnManager.cs:79-90 | Fails iff the firing makes at least one object and there are no launch-object prefabs. Otherwise it creates exactly the configured count, one per draw, in order. Each is the drawn prefab (index in bounds) with its own rotation, at the placement its draws give. In a well-formed arena each lies on the border at the player's scale height |
| Spawning.FirstSoulIndex | Assets/Scripts/Gameplay/SpawnManager.cs:110-121 | Returns nothing iff no soul has the colour. Otherwise it returns an in-bounds index of a soul of that colour, with no earlier soul of that colour |
| Spawning.FindSoulByColor | Assets/Scripts/Gameplay/SpawnManager.cs:110-121 | Returns null iff no soul matches the colour. A returned soul has the colour and is the first such soul in array order |
| Spawning.FindSoulByColorUnique | Assets/Scripts/Gameplay/SpawnManager.cs:110-121 | When exactly one soul has the colour, that soul is found |
| Spawning.SpawnEnemySoul | Assets/Scripts/Gameplay/SpawnManager.cs:93-107 | Fails with the colour's lookup error iff no soul has the enemy's colour, and then nothing is instantiated. Otherwise it instantiates the first soul of that colour in array order (the one the lookup returns) at (enemy.x, enemy.y - 0.2, enemy.z), with the soul's rotation |
| Spawning.SpawnPowerupVFX | Assets/Scripts/Gameplay/SpawnManager.cs:124-130 | Creates exactly one instance per configured effect, in array order, all at the given position with each effect's own rotation |

## Left out

- Heading and velocity numerics of `Move` and `StopMoving` are left out. These are the camera-relative `Atan2` angle, `SmoothDampAngle` turning, the quaternion direction and `Time.deltaTime` scaling, all floating-point trigonometry. A moving frame is described by its axis inputs and speed tier only.
- Floating point is modelled as exact reals: single-precision rounding is not modelled. This covers the 0.2 soul offset, the percentages and life arithmetic.
- Most animator calls are left out. The `Idle_b` and `Defending_b` booleans are not represented. The current state tag is an input field, and the triggers and the `Speed_f` value are modelled as emitted values.
- Input polling (mouse buttons, axes, left shift) is represented by parameters.
- The immunity coroutine's timing is left out. The immunity flag is an input, and each request for an immunity window is an emitted signal with its duration.
- Internals of the game manager, HUD, enemy, soul and environment components are left out. Their values enter as fields or parameters: game-active flag, cooldown times, damage, enemy attack state, soul colours, arena limits, player scale.
- Component lookups (`Start`, `GetPlayerAnimator`, `FindObjectOfType`, tag lookups) are left out.
- Null references are left out: a missing component or a null entry in a prefab array would raise a null-reference error.
- Real-time firing of the repeating invocations is left out. This includes the engine's own rejection of a non-positive repeat rate. The schedule records only what is registered.
- The distribution of the random draws is left out. For instance, the edge of a launch object is picked by `Random.Range(0, 4)`; how often each edge comes up is a property of that distribution, which the model does not describe: it only bounds each draw.
- Object lifecycle is left out. `Instantiate` returns an `Instance` for the caller to append, and `Destroy` of a launch object is a `DestroyOther` signal.
- Assets/Scripts/StartPanel.cs is left out; it only toggles a panel's visibility.
- Player.LifeInPercent: requires maxLife > 0. With maxLife = 0 the engine's float division gives an infinity or NaN, which reals cannot represent. A negative maxLife is excluded too: it is not a meaningful configuration, since the setter could then store no value at all within [0, maxLife].
- Player.GetHit: requires maxLife > 0, because it sends the life percentage to the HUD.
- Player.OnCollisionStay: requires maxLife > 0, because it applies a hit.
- Player.OnTriggerEnter: requires maxLife > 0, because it applies a hit.
