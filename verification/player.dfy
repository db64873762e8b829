/** The player's combat state: life and its clamping setter, the alternating
    attack variant, defending, hits from enemies and launch objects, and the
    game-over request. The animator's current state tag, the game manager's
    "game active" flag and the immunity flag are explicit fields; everything
    the controller asks of the engine or the HUD becomes an emitted signal. */
module Player {

  datatype AttackType = Vertical | Diagonal

  /** The tag of the animator state currently playing. */
  datatype AnimTag = AttackTag | RunTag | GetHitTag | DieRecoverTag | OtherTag

  datatype PlayerState = PlayerState(
    life: real,
    maxLife: real,
    attackType: AttackType,
    isDefending: bool,
    isImmune: bool,
    gameActive: bool,
    tag: AnimTag)

  /** What the controller asks of its collaborators. */
  datatype Signal =
    | Attack1Trig                    // animator trigger of the vertical attack
    | Attack2Trig                    // animator trigger of the diagonal attack
    | GetHitTrig                     // animator trigger of the hit reaction
    | HealthBar(percent: real)       // HUD health bar update
    | GameOver                       // game manager's game-over request
    | Immunize(duration: real)       // game manager's immunity coroutine
    | DestroyOther                   // destroy the launch object that touched the player

  /** The state after one event, and the signals it emitted in order. */
  datatype Step = Step(player: PlayerState, signals: seq<Signal>)

  /** The other object of a collision or trigger, as far as the controller looks at it. */
  datatype ObjectTag = EnemyObject | LaunchObjectObject | UntaggedObject

  datatype Contact = Contact(
    tag: ObjectTag,
    enemyAttacking: bool,        // the enemy's own attack-state query
    damage: real,                // enemy physical damage or launch-object damage
    timeBeforeAttacking: real)   // enemy's immunity window on first contact

  /** The game manager's cooldown constants. */
  datatype Cooldowns = Cooldowns(combatCooldownTime: real, receiveDamageCooldownTime: real)

  /** The inputs sampled in one frame. */
  datatype FrameInput = FrameInput(
    attackPressed: bool,    // left mouse button went down this frame
    defendHeld: bool,       // right mouse button is held
    defendReleased: bool)   // right mouse button went up this frame

  const DefaultLife: real := 100.0
  const DefaultMaxLife: real := 100.0

  /** The serialized defaults, with the attack variant Awake chooses. */
  function Initial(gameActive: bool, tag: AnimTag): (p: PlayerState)
    ensures p.life == p.maxLife == 100.0
    ensures p.attackType == Vertical
    ensures !p.isDefending && !p.isImmune
    ensures p.gameActive == gameActive && p.tag == tag
  {
    PlayerState(DefaultLife, DefaultMaxLife, Vertical, false, false, gameActive, tag)
  }

  /** Mathf.Clamp: the lower bound is tested first. */
  function Clamp(value: real, lo: real, hi: real): real
  {
    if value < lo then lo else if value > hi then hi else value
  }

  /** The `Life` setter. */
  function SetLife(p: PlayerState, value: real): (r: PlayerState)
    ensures 0.0 <= p.maxLife ==> 0.0 <= r.life <= p.maxLife
    ensures 0.0 <= value <= p.maxLife ==> r.life == value
    ensures value < 0.0 ==> r.life == 0.0
    ensures 0.0 <= p.maxLife < value ==> r.life == p.maxLife
    ensures r == p.(life := r.life)
  {
    p.(life := Clamp(value, 0.0, p.maxLife))
  }

  /** Assigning the value just read back through the setter changes nothing. */
  lemma SetLifeIdempotent(p: PlayerState, value: real)
    requires 0.0 <= p.maxLife
    ensures SetLife(SetLife(p, value), SetLife(p, value).life) == SetLife(p, value)
  {
  }

  /** GetLifeInPercent. */
  function LifeInPercent(p: PlayerState): (r: real)
    requires p.maxLife > 0.0
    ensures r * p.maxLife == p.life * 100.0
    ensures p.life == p.maxLife ==> r == 100.0
    ensures p.life == 0.0 ==> r == 0.0
    ensures 0.0 <= p.life <= p.maxLife ==> 0.0 <= r <= 100.0
    ensures r < 0.0 <==> p.life < 0.0
  {
    p.life / p.maxLife * 100.0
  }

  // ---------------------------------------------------------------- attacks

  /** ChangeTypeAttack. */
  function ChangeTypeAttack(t: AttackType): (r: AttackType)
    ensures r != t
  {
    match t
    case Vertical => Diagonal
    case Diagonal => Vertical
  }

  lemma ChangeTypeAttackInvolution(t: AttackType)
    ensures ChangeTypeAttack(ChangeTypeAttack(t)) == t
  {
  }

  /** Attack: the animator trigger fired for the current variant. */
  function AttackSignal(t: AttackType): (s: Signal)
    ensures s == Attack1Trig || s == Attack2Trig
    ensures s == Attack1Trig <==> t == Vertical
  {
    match t
    case Vertical => Attack1Trig
    case Diagonal => Attack2Trig
  }

  /** The attack variant after `n` successful attacks starting from `t`. */
  function AttackTypeAfter(t: AttackType, n: nat): AttackType
  {
    if n == 0 then t else ChangeTypeAttack(AttackTypeAfter(t, n - 1))
  }

  /** From the variant Awake chooses, n attacks leave it Vertical iff n is even. */
  lemma {:induction false} AttackTypeAfterParity(n: nat)
    ensures AttackTypeAfter(Vertical, n) == Vertical <==> n % 2 == 0
  {
    if n > 0 {
      AttackTypeAfterParity(n - 1);
    }
  }

  /** The triggers fired by `n` successful attacks from the variant `t`, and the
      variant left for the next attack. */
  method AttackSeries(t: AttackType, n: nat) returns (triggers: seq<Signal>, next: AttackType)
    ensures |triggers| == n
    ensures forall k :: 0 <= k < n ==>
      triggers[k] == (if (k % 2 == 0) == (t == Vertical) then Attack1Trig else Attack2Trig)
    ensures next == AttackTypeAfter(t, n)
  {
    triggers := [];
    next := t;
    var i := 0;
    while i < n
      invariant 0 <= i <= n
      invariant |triggers| == i
      invariant next == AttackTypeAfter(t, i)
      invariant (next == t) <==> i % 2 == 0
      invariant forall k :: 0 <= k < i ==>
        triggers[k] == (if (k % 2 == 0) == (t == Vertical) then Attack1Trig else Attack2Trig)
    {
      triggers := triggers + [AttackSignal(next)];
      next := ChangeTypeAttack(next);
      i := i + 1;
    }
  }

  // ---------------------------------------------------------------- defending

  /** Defend. */
  function Defend(p: PlayerState): (r: PlayerState)
    ensures r.isDefending
    ensures r == p.(isDefending := true)
  {
    p.(isDefending := true)
  }

  /** StopDefending. */
  function StopDefending(p: PlayerState): (r: PlayerState)
    ensures !r.isDefending
    ensures r == p.(isDefending := false)
  {
    p.(isDefending := false)
  }

  /** Releasing the guard undoes raising it on a player that was not defending. */
  lemma StopDefendingUndoesDefend(p: PlayerState)
    requires !p.isDefending
    ensures StopDefending(Defend(p)) == p
  {
  }

  // ---------------------------------------------------------------- Update

  /** The part of Update that gates every input: the game is running and the
      death-recovery animation is not playing. */
  predicate CanAct(p: PlayerState)
  {
    p.gameActive && p.tag != DieRecoverTag
  }

  /** One call of Update: attack (then switch variant), then defend or stop defending. */
  function Update(p: PlayerState, input: FrameInput): (r: Step)
    ensures |r.signals| <= 1
    ensures |r.signals| == 1 <==>
      p.gameActive && p.tag != DieRecoverTag && input.attackPressed
      && p.tag != RunTag && p.tag != AttackTag
    ensures |r.signals| == 1 ==>
      r.signals[0] == AttackSignal(p.attackType)
      && r.player.attackType == ChangeTypeAttack(p.attackType)
    ensures |r.signals| == 0 ==> r.player.attackType == p.attackType
    ensures p.gameActive && p.tag != DieRecoverTag && input.defendHeld ==> r.player.isDefending
    ensures p.gameActive && p.tag != DieRecoverTag && !input.defendHeld && input.defendReleased
      ==> !r.player.isDefending
    ensures r.player.isDefending != p.isDefending ==>
      p.gameActive && p.tag != DieRecoverTag && (input.defendHeld || input.defendReleased)
    ensures r.player == p.(attackType := r.player.attackType, isDefending := r.player.isDefending)
  {
    if !CanAct(p) then
      Step(p, [])
    else
      var attacked :=
        if input.attackPressed && p.tag != RunTag && p.tag != AttackTag
        then Step(p.(attackType := ChangeTypeAttack(p.attackType)), [AttackSignal(p.attackType)])
        else Step(p, []);
      var guarded :=
        if input.defendHeld then Defend(attacked.player)
        else if input.defendReleased then StopDefending(attacked.player)
        else attacked.player;
      Step(guarded, attacked.signals)
  }

  /** Two attacking frames in a row (the animator having left the attack state
      in between) restore the variant. */
  lemma TwoAttacksRestoreVariant(p: PlayerState, input: FrameInput)
    requires CanAct(p) && input.attackPressed && p.tag != RunTag && p.tag != AttackTag
    ensures Update(Update(p, input).player, input).player.attackType == p.attackType
    ensures Update(p, input).signals != Update(Update(p, input).player, input).signals
  {
  }

  // ---------------------------------------------------------------- hits

  /** The guard shared by GetHitFromEnemy and GetHitFromLaunchObject. */
  predicate HitBlocked(p: PlayerState)
  {
    p.isDefending || p.tag == DieRecoverTag || !p.gameActive
  }

  /** GetHitFromEnemy and GetHitFromLaunchObject (their bodies are the same):
      the damage is taken off the raw life field, not through the setter. */
  function GetHit(p: PlayerState, damage: real): (r: Step)
    requires p.maxLife > 0.0
    ensures HitBlocked(p) ==> r == Step(p, [])
    ensures !HitBlocked(p) ==> r.player == p.(life := p.life - damage)
    ensures !HitBlocked(p) ==> |r.signals| == (if p.life - damage > 0.0 then 2 else 1)
    ensures !HitBlocked(p) ==> r.signals[0] == HealthBar(LifeInPercent(r.player))
    ensures GetHitTrig in r.signals <==> !HitBlocked(p) && p.life - damage > 0.0
    ensures GameOver !in r.signals && DestroyOther !in r.signals
    ensures forall d :: Immunize(d) !in r.signals
  {
    if HitBlocked(p) then
      Step(p, [])
    else
      var hurt := p.(life := p.life - damage);
      Step(hurt, [HealthBar(LifeInPercent(hurt))] + (if hurt.life > 0.0 then [GetHitTrig] else []))
  }

  /** Hits are not clamped: a hit larger than the remaining life leaves it negative,
      and the health bar is then sent a negative percentage. */
  lemma HitCanLeaveLifeNegative()
    ensures var p := PlayerState(70.0, 100.0, Vertical, false, false, true, OtherTag);
            var r := GetHit(p, 80.0);
            r.player.life == -10.0 && r.signals == [HealthBar(-10.0)]
  {
  }

  /** Two unblocked hits take off the sum of their damages. */
  lemma HitsAccumulate(p: PlayerState, d1: real, d2: real)
    requires p.maxLife > 0.0 && !HitBlocked(p)
    ensures GetHit(GetHit(p, d1).player, d2).player.life == p.life - (d1 + d2)
  {
  }

  // ---------------------------------------------------------------- collisions

  /** OnCollisionEnter: first contact with an enemy starts an immunity window of
      the enemy's own length. */
  function OnCollisionEnter(p: PlayerState, c: Contact): (r: seq<Signal>)
    ensures |r| <= 1
    ensures |r| == 1 <==> c.tag == EnemyObject && !p.isImmune
    ensures forall s :: s in r ==> s == Immunize(c.timeBeforeAttacking)
  {
    if c.tag == EnemyObject && !p.isImmune then [Immunize(c.timeBeforeAttacking)] else []
  }

  /** The contact condition OnCollisionStay tests before anything happens. */
  predicate EnemyStrikes(p: PlayerState, c: Contact)
  {
    c.tag == EnemyObject && !p.isImmune && c.enemyAttacking
  }

  /** OnCollisionStay: an attacking enemy touching a non-immune player hits them;
      game over is requested whenever life is then at or below zero, and the
      combat cooldown starts. */
  function OnCollisionStay(p: PlayerState, c: Contact, cd: Cooldowns): (r: Step)
    requires p.maxLife > 0.0
    ensures !(c.tag == EnemyObject && !p.isImmune && c.enemyAttacking) ==> r == Step(p, [])
    ensures c.tag == EnemyObject && !p.isImmune && c.enemyAttacking ==>
      && r.player == GetHit(p, c.damage).player
      && r.signals == GetHit(p, c.damage).signals
                      + (if r.player.life <= 0.0 then [GameOver] else [])
                      + [Immunize(cd.combatCooldownTime)]
      && (GameOver in r.signals <==> r.player.life <= 0.0)
    ensures r.player.life != p.life ==>
      c.tag == EnemyObject && !p.isImmune && c.enemyAttacking && !HitBlocked(p)
  {
    if EnemyStrikes(p, c) then
      var hit := GetHit(p, c.damage);
      Step(hit.player,
           hit.signals + (if hit.player.life <= 0.0 then [GameOver] else [])
           + [Immunize(cd.combatCooldownTime)])
    else
      Step(p, [])
  }

  /** OnTriggerEnter: a launch object hits the player whatever the immunity flag,
      is destroyed, and the damage cooldown starts. */
  function OnTriggerEnter(p: PlayerState, c: Contact, cd: Cooldowns): (r: Step)
    requires p.maxLife > 0.0
    ensures c.tag != LaunchObjectObject ==> r == Step(p, [])
    ensures c.tag == LaunchObjectObject ==>
      && r.player == GetHit(p, c.damage).player
      && r.signals == GetHit(p, c.damage).signals + [DestroyOther]
                      + (if r.player.life <= 0.0 then [GameOver] else [])
                      + [Immunize(cd.receiveDamageCooldownTime)]
      && (GameOver in r.signals <==> r.player.life <= 0.0)
  {
    if c.tag == LaunchObjectObject then
      var hit := GetHit(p, c.damage);
      Step(hit.player,
           hit.signals + [DestroyOther] + (if hit.player.life <= 0.0 then [GameOver] else [])
           + [Immunize(cd.receiveDamageCooldownTime)])
    else
      Step(p, [])
  }

  /** Immunity gates enemy contact but not launch objects. */
  lemma ImmunityGatesOnlyEnemies(p: PlayerState, c: Contact, cd: Cooldowns)
    requires p.maxLife > 0.0 && p.isImmune
    ensures OnCollisionStay(p, c, cd) == Step(p, [])
    ensures OnTriggerEnter(p, c, cd).player.life == OnTriggerEnter(p.(isImmune := false), c, cd).player.life
    ensures OnTriggerEnter(p, c, cd).signals == OnTriggerEnter(p.(isImmune := false), c, cd).signals
  {
  }

  /** Game over is not deduplicated: once life is at or below zero, every further
      qualifying contact requests it again, even one the guard blocks. */
  lemma GameOverRepeats(p: PlayerState, c: Contact, cd: Cooldowns)
    requires p.maxLife > 0.0 && p.life <= 0.0 && c.damage >= 0.0
    ensures EnemyStrikes(p, c) ==> GameOver in OnCollisionStay(p, c, cd).signals
    ensures c.tag == LaunchObjectObject ==> GameOver in OnTriggerEnter(p, c, cd).signals
  {
  }

  /** A first enemy strike of 30 on a fresh player: life 70, bar at 70%, a hit
      reaction and no game over. */
  lemma FirstStrikeScenario(cd: Cooldowns)
    ensures var p := Initial(true, OtherTag);
            var r := OnCollisionStay(p, Contact(EnemyObject, true, 30.0, 1.0), cd);
            && r.player.life == 70.0
            && r.signals == [HealthBar(70.0), GetHitTrig, Immunize(cd.combatCooldownTime)]
  {
  }
}
