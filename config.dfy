// Game constants of the room engine, as the server defines them.
module Config {
  const RADIUS: int := 20
  /** Speed of a human tank in pixels per tick; bots move at BOT_SPEED, the speed pickup multiplies either. */
  const SPEED: int := 3
  const BOT_SPEED: real := 1.8
  const SPEED_BOOST: real := 1.3
  /** An input or steering component larger than this in magnitude turns the tank. */
  const TURN_THRESHOLD: real := 0.01
  const CANVAS_W: int := 1800
  const CANVAS_H: int := 1000
  const PROJECTILE_SPEED: int := 6
  const PROJECTILE_RADIUS: int := 4
  const FIRE_COOLDOWN: int := 1000
  const MAX_HP: int := 100
  const BULLET_DAMAGE: int := 50
  const DESTRUCT_RADIUS: int := 25
  const ARMOUR_FRONT: int := 10
  const ARMOUR_SIDE: int := 5
  const ARMOUR_REAR: int := 0
  /** Extra armour granted by the armour pickup. */
  const ARMOUR_UPGRADE: int := 5
  const HEAL_PER_SEC: int := 1
  const HEAL_DURATION: int := 10000
  const HEAL_COOLDOWN: int := 3000
  /** Milliseconds between two heal increments. */
  const HEAL_TICK: int := 1000
  /** Cooldown reduction granted by the heal pickup. */
  const REPAIR_BONUS: int := 3000
  const PICKUP_RADIUS: int := 15
  const PICKUP_INTERVAL: int := 20000
  /** Capacity bounds of a room. */
  const MIN_PLAYERS: int := 2
  const MAX_PLAYERS: int := 7
  /** Bots do nothing during the first two seconds of a round. */
  const BOT_WARMUP: int := 2000
  /** Distance from the tank centre at which a new projectile appears. */
  const MUZZLE_OFFSET: int := RADIUS + PROJECTILE_RADIUS + 2
}

module Wrappers {
  datatype Option<T> = None | Some(value: T)
}
