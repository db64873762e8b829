/** FixedUpdate's movement gating and the two speed tiers. The heading
    (camera-relative angle, smoothed turning, quaternions) and the per-frame
    time scaling are engine numerics and are not modelled: a moving frame is
    described by the raw axis inputs and the speed tier it uses. */
module PlayerMovement {
  import opened Player

  datatype MoveConfig = MoveConfig(
    movementSpeed: real,
    walkingAnimSpeedValue: real,
    runningAnimSpeedValue: real)

  const DefaultMoveConfig: MoveConfig := MoveConfig(200.0, 0.4, 1.0)

  /** The animator speed value written when the player stops. */
  const IdleAnimSpeedValue: real := 0.0

  /** A movement speed and the animator speed value that goes with it. */
  datatype SpeedTier = SpeedTier(speed: real, animSpeed: real)

  /** What one FixedUpdate does to the rigid body. */
  datatype Motion =
    | Stopped
    | Moving(horizontal: real, vertical: real, tier: SpeedTier)

  /** GetMovementSpeed: left shift doubles the speed and plays the run animation. */
  function GetMovementSpeed(cfg: MoveConfig, shiftHeld: bool): (r: SpeedTier)
    ensures r.speed == (if shiftHeld then 2.0 else 1.0) * cfg.movementSpeed
    ensures r.animSpeed == (if shiftHeld then cfg.runningAnimSpeedValue else cfg.walkingAnimSpeedValue)
  {
    if shiftHeld then SpeedTier(cfg.movementSpeed * 2.0, cfg.runningAnimSpeedValue)
    else SpeedTier(cfg.movementSpeed, cfg.walkingAnimSpeedValue)
  }

  /** The speed magnitude the body is given (before time scaling). */
  function SpeedOf(m: Motion): real
  {
    match m
    case Stopped => 0.0
    case Moving(_, _, tier) => tier.speed
  }

  /** The animator speed value one FixedUpdate leaves. */
  function AnimSpeedOf(m: Motion): real
  {
    match m
    case Stopped => IdleAnimSpeedValue
    case Moving(_, _, tier) => tier.animSpeed
  }

  /** FixedUpdate. */
  function FixedUpdate(p: PlayerState, cfg: MoveConfig, horizontal: real, vertical: real, shiftHeld: bool): (r: Motion)
    ensures r.Stopped? <==>
      !p.gameActive || p.tag == DieRecoverTag || p.tag == AttackTag || p.isDefending
      || p.tag == GetHitTag || (horizontal == 0.0 && vertical == 0.0)
    ensures r.Moving? ==>
      r.horizontal == horizontal && r.vertical == vertical && r.tier == GetMovementSpeed(cfg, shiftHeld)
  {
    if p.gameActive && p.tag != DieRecoverTag && p.tag != AttackTag && !p.isDefending && p.tag != GetHitTag then
      if horizontal != 0.0 || vertical != 0.0 then
        Moving(horizontal, vertical, GetMovementSpeed(cfg, shiftHeld))
      else
        Stopped
    else
      Stopped
  }

  /** The speed a frame produces: zero when gated or without input, otherwise
      the walking speed, doubled with shift held. */
  lemma FixedUpdateSpeed(p: PlayerState, cfg: MoveConfig, horizontal: real, vertical: real, shiftHeld: bool)
    ensures var m := FixedUpdate(p, cfg, horizontal, vertical, shiftHeld);
      && (!CanAct(p) || p.tag == AttackTag || p.isDefending || p.tag == GetHitTag ==> SpeedOf(m) == 0.0 && AnimSpeedOf(m) == IdleAnimSpeedValue)
      && (horizontal == 0.0 && vertical == 0.0 ==> SpeedOf(m) == 0.0)
      && (m.Moving? && shiftHeld ==> SpeedOf(m) == 2.0 * SpeedOf(FixedUpdate(p, cfg, horizontal, vertical, false)))
      && (m.Moving? ==> SpeedOf(FixedUpdate(p, cfg, horizontal, vertical, false)) == cfg.movementSpeed)
  {
  }

  /** Movement never changes the combat state: the same frame gives the same
      motion whatever the life, the attack variant or the immunity flag. */
  lemma MotionIgnoresCombatFields(p: PlayerState, life: real, t: AttackType, immune: bool,
                                  cfg: MoveConfig, horizontal: real, vertical: real, shiftHeld: bool)
    ensures FixedUpdate(p.(life := life, attackType := t, isImmune := immune), cfg, horizontal, vertical, shiftHeld)
         == FixedUpdate(p, cfg, horizontal, vertical, shiftHeld)
  {
  }
}
