/** The game's state as a value and the rules that take it from one frame to the next:
    the PLAYING step, `reset_game`, the mouse clicks of the menus and the main loop.
    The class in session.dfy runs these rules in place; here they are functions. */
module Rules {
  import opened Config
  import opened Geometry
  import opened Needles
  import opened Collision

  datatype GameState = StartMenu | Playing | GameOver

  /** The four arrow keys as `pygame.key.get_pressed()` reports them. */
  datatype Keys = Keys(left: bool, right: bool, up: bool, down: bool)

  /** What `pygame.event.get()` delivers: the window's close button, a mouse press at a
      pixel, or anything else (ignored). */
  datatype Event = QuitEvent | MouseDown(mx: int, my: int) | OtherEvent

  /** One frame's inputs: the events, `pygame.time.get_ticks()`, the keys, and the value
      `random.randint(0, 1490)` would return. */
  datatype FrameInput = FrameInput(events: seq<Event>, now: int, keys: Keys, spawnX: int)

  /** The module globals the loop reads and writes. */
  datatype World = World(
    playerX: real, playerY: real,
    enemies: seq<Needle>,
    score: nat,
    baseEnemySpeed: real, baseSpawnRate: int,
    lastSpawnTime: int, lastDifficultyIncreaseTime: int,
    state: GameState,
    running: bool)

  // The buttons, as the menu screens lay them out, all 200 by 60 and centred horizontally.
  const StartButton: Rect := Rect(ScreenWidth as real / 2.0 - 100.0, ScreenHeight as real / 2.0, 200.0, 60.0)
  const MenuQuitButton: Rect := Rect(ScreenWidth as real / 2.0 - 100.0, ScreenHeight as real / 2.0 + 80.0, 200.0, 60.0)
  const RetryButton: Rect := Rect(ScreenWidth as real / 2.0 - 100.0, ScreenHeight as real / 2.0 + 50.0, 200.0, 60.0)
  const GameOverQuitButton: Rect := Rect(ScreenWidth as real / 2.0 - 100.0, ScreenHeight as real / 2.0 + 130.0, 200.0, 60.0)

  /** The program's state when the loop starts: the start menu, with the balloon placed and
      the difficulty at its initial values. The two timers are read by two separate calls
      to `pygame.time.get_ticks()`, so they may differ. */
  function Initial(spawnTick: int, difficultyTick: int): (r: World)
    ensures ValidWorld(r) && r.state == StartMenu && r.running
  {
    World(StartX, StartY, [], 0, InitialEnemySpeed, InitialSpawnRate, spawnTick, difficultyTick, StartMenu, true)
  }

  /** A needle as it can be found between frames: spawned within the screen's width, falling
      at a speed between the initial one and the current one, and still on screen. */
  predicate NeedleOk(n: Needle, baseSpeed: real) {
    0 <= n.x <= MaxSpawnX &&
    InitialEnemySpeed <= n.speed <= baseSpeed &&
    0.0 < n.y <= ScreenHeight as real
  }

  /** What holds of the globals between frames. */
  predicate ValidWorld(w: World) {
    0.0 <= w.playerX <= MaxPlayerX && 0.0 <= w.playerY <= MaxPlayerY &&
    MinSpawnRate <= w.baseSpawnRate <= InitialSpawnRate &&
    InitialEnemySpeed <= w.baseEnemySpeed &&
    forall n :: n in w.enemies ==> NeedleOk(n, w.baseEnemySpeed)
  }

  // ---------------------------------------------------------------- reset_game

  /** `reset_game`: a new round. The two timestamps and `running` are not touched. */
  function Reset(w: World): (r: World)
    ensures ValidWorld(r) && r.state == Playing
    ensures r.score == 0 && r.enemies == []
    ensures r.lastSpawnTime == w.lastSpawnTime
    ensures r.lastDifficultyIncreaseTime == w.lastDifficultyIncreaseTime
    ensures r.running == w.running
  {
    w.(playerX := StartX, playerY := StartY, score := 0, enemies := [],
       baseEnemySpeed := InitialEnemySpeed, baseSpawnRate := InitialSpawnRate,
       state := Playing)
  }

  // ---------------------------------------------------------------- 1. movement

  /** One coordinate under a pair of opposing keys: minus 1.5, then plus 1.5. */
  function Nudge(v: real, minus: bool, plus: bool): (r: real)
    ensures minus == plus ==> r == v
    ensures minus && !plus ==> r == v - PlayerSpeed
    ensures plus && !minus ==> r == v + PlayerSpeed
  {
    var afterMinus := if minus then v - PlayerSpeed else v;
    if plus then afterMinus + PlayerSpeed else afterMinus
  }

  /** `max(0, min(v, hi))`. */
  function Clamp(v: real, hi: real): (r: real)
    requires 0.0 <= hi
    ensures 0.0 <= r <= hi
    ensures 0.0 <= v <= hi ==> r == v
    ensures v < 0.0 ==> r == 0.0
    ensures hi < v ==> r == hi
  {
    var m := if hi < v then hi else v;
    if m < 0.0 then 0.0 else m
  }

  /** Keyboard movement then clamping (the first part of the PLAYING branch). */
  function Moved(w: World, keys: Keys): (r: World)
    ensures 0.0 <= r.playerX <= MaxPlayerX && 0.0 <= r.playerY <= MaxPlayerY
    ensures r == w.(playerX := r.playerX, playerY := r.playerY)
  {
    w.(playerX := Clamp(Nudge(w.playerX, keys.left, keys.right), MaxPlayerX),
       playerY := Clamp(Nudge(w.playerY, keys.up, keys.down), MaxPlayerY))
  }

  // ---------------------------------------------------------------- 2. escalation

  predicate EscalationDue(w: World, now: int) {
    now - w.lastDifficultyIncreaseTime > EscalationPeriod
  }

  /** `max(50, base_spawn_rate - 10)`. */
  function LoweredRate(rate: int): (r: int)
    ensures r >= MinSpawnRate
    ensures rate >= MinSpawnRate ==> r <= rate
    ensures rate - SpawnRateStep >= MinSpawnRate ==> r == rate - SpawnRateStep
  {
    if rate - SpawnRateStep > MinSpawnRate then rate - SpawnRateStep else MinSpawnRate
  }

  /** Every 10 seconds (strictly more than 10000 ticks since the last escalation) the
      base speed grows by 0.05 and the spawn interval shrinks by 10, down to 50. */
  function Escalated(w: World, now: int): (r: World)
    ensures !EscalationDue(w, now) ==> r == w
    ensures EscalationDue(w, now) ==>
      r == w.(baseEnemySpeed := r.baseEnemySpeed, baseSpawnRate := r.baseSpawnRate,
              lastDifficultyIncreaseTime := now) &&
      r.baseEnemySpeed == w.baseEnemySpeed + SpeedStep &&
      MinSpawnRate <= r.baseSpawnRate &&
      (w.baseSpawnRate >= MinSpawnRate ==> r.baseSpawnRate <= w.baseSpawnRate)
  {
    if EscalationDue(w, now) then
      w.(baseEnemySpeed := w.baseEnemySpeed + SpeedStep,
         baseSpawnRate := LoweredRate(w.baseSpawnRate),
         lastDifficultyIncreaseTime := now)
    else w
  }

  // ---------------------------------------------------------------- 3. spawning

  predicate SpawnDue(w: World, now: int) {
    now - w.lastSpawnTime > w.baseSpawnRate
  }

  /** The needle appended at `x`: at the top edge, with the current base speed. */
  function Fresh(w: World, x: int): Needle {
    Needle(x, 0.0, w.baseEnemySpeed)
  }

  /** At most one needle per frame, and only when strictly more than the spawn interval
      has passed since the last one. */
  function Spawned(w: World, now: int, spawnX: int): (r: World)
    requires 0 <= spawnX <= MaxSpawnX
    ensures !SpawnDue(w, now) ==> r == w
    ensures SpawnDue(w, now) ==>
      r == w.(enemies := r.enemies, lastSpawnTime := now) &&
      r.enemies == w.enemies + [Fresh(w, spawnX)]
  {
    if SpawnDue(w, now) then
      w.(enemies := w.enemies + [Fresh(w, spawnX)], lastSpawnTime := now)
    else w
  }

  // ---------------------------------------------------------------- the whole PLAYING step

  /** The globals after steps 1 to 3 of the PLAYING branch: moved, escalated, spawned. */
  function Prepared(w: World, now: int, keys: Keys, spawnX: int): World
    requires 0 <= spawnX <= MaxSpawnX
  {
    Spawned(Escalated(Moved(w, keys), now), now, spawnX)
  }

  /** The needle list after the advancing loop, before anything is removed. */
  function Flight(w: World, now: int, keys: Keys, spawnX: int): seq<Needle>
    requires 0 <= spawnX <= MaxSpawnX
  {
    AdvanceAll(Prepared(w, now, keys, spawnX).enemies)
  }

  /** The PLAYING branch of one frame: move and clamp, escalate, spawn, advance every needle
      and test it against the balloon (a hit sets GAME_OVER but the loop goes on), then
      remove the off-screen needles, one point each. */
  function AfterStep(w: World, now: int, keys: Keys, spawnX: int): (r: World)
    requires 0 <= spawnX <= MaxSpawnX
    ensures r.running == w.running && r.score >= w.score
    ensures r.state == GameOver || r.state == w.state
  {
    var p := Prepared(w, now, keys, spawnX);
    var f := AdvanceAll(p.enemies);
    p.(enemies := Survivors(f),
       score := p.score + |Marked(f)|,
       state := if AnyCollision(p.playerX, p.playerY, f) then GameOver else p.state)
  }

  // ---------------------------------------------------------------- events

  /** A mouse press. In the start menu the start button only switches to PLAYING (it does
      not call `reset_game`); in GAME_OVER the retry button calls `reset_game`; the quit
      buttons end the loop. While PLAYING clicks do nothing. */
  function AfterClick(w: World, mx: int, my: int): (r: World)
    ensures r == w || r.state == Playing || !r.running
    ensures r.running ==> w.running
  {
    var x, y := mx as real, my as real;
    match w.state
    case StartMenu =>
      if ContainsPoint(StartButton, x, y) then w.(state := Playing)
      else if ContainsPoint(MenuQuitButton, x, y) then w.(running := false)
      else w
    case GameOver =>
      if ContainsPoint(RetryButton, x, y) then Reset(w)
      else if ContainsPoint(GameOverQuitButton, x, y) then w.(running := false)
      else w
    case Playing => w
  }

  /** One event: a click changes nothing, starts a round or ends the loop, and nothing
      restarts a loop that has ended. */
  function AfterEvent(w: World, e: Event): (r: World)
    ensures r == w || r.state == Playing || !r.running
    ensures r.running ==> w.running
  {
    match e
    case QuitEvent => w.(running := false)
    case MouseDown(mx, my) => AfterClick(w, mx, my)
    case OtherEvent => w
  }

  /** The events of one frame, handled in order. */
  function AfterEvents(w: World, es: seq<Event>): (r: World)
    ensures r.running ==> w.running
  {
    if es == [] then w else AfterEvent(AfterEvents(w, es[..|es| - 1]), es[|es| - 1])
  }

  // ---------------------------------------------------------------- the main loop

  predicate InputOk(f: FrameInput) {
    0 <= f.spawnX <= MaxSpawnX
  }

  /** One pass of `while running`: the events, then the PLAYING branch if the game is
      (still or now) being played. */
  function AfterFrame(w: World, f: FrameInput): (r: World)
    requires InputOk(f)
    ensures r.running ==> w.running
  {
    var v := AfterEvents(w, f.events);
    if v.state == Playing then AfterStep(v, f.now, f.keys, f.spawnX) else v
  }

  /** `while running`: frames are taken as long as the loop runs and inputs remain. */
  function Run(w: World, frames: seq<FrameInput>): (r: World)
    requires forall i :: 0 <= i < |frames| ==> InputOk(frames[i])
    ensures !w.running ==> r == w
    ensures r.running ==> w.running
    decreases |frames|
  {
    if frames == [] || !w.running then w else Run(AfterFrame(w, frames[0]), frames[1..])
  }
}
