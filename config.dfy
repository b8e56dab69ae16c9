/** Fixed dimensions and tuning constants of "Dodge the Needles".
    Screen coordinates grow rightwards and downwards; time is in ticks (milliseconds). */
module Config {
  const ScreenWidth: int := 1500
  const ScreenHeight: int := 800

  // The balloon
  const PlayerWidth: int := 40
  const PlayerHeight: int := 60
  const PlayerSpeed: real := 1.5

  // The needles
  const EnemyWidth: int := 10
  const EnemyHeight: int := 80
  const PinheadRadius: int := 6

  // Difficulty
  const InitialEnemySpeed: real := 0.5
  const InitialSpawnRate: int := 200
  const MinSpawnRate: int := 50
  const SpawnRateStep: int := 10
  const SpeedStep: real := 0.05
  const EscalationPeriod: int := 10000

  // Derived values
  /** Where a round starts: horizontally centred, 30 pixels above the bottom edge (730, 710). */
  const StartX: real := (ScreenWidth as real / 2.0) - (PlayerWidth as real / 2.0)
  const StartY: real := (ScreenHeight - PlayerHeight - 30) as real
  /** The largest coordinates the balloon's top-left corner may take (1460, 740). */
  const MaxPlayerX: real := (ScreenWidth - PlayerWidth) as real
  const MaxPlayerY: real := (ScreenHeight - PlayerHeight) as real
  /** The largest x a needle may spawn at (1490). */
  const MaxSpawnX: int := ScreenWidth - EnemyWidth
}
