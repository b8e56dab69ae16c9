/** The game as the program runs it: module globals updated in place by the main loop,
    here the fields of one session object. ResetGame, HandleEvent, Step, RunFrame and Play
    are proved to leave the globals equal to the matching function of rules.dfy (Reset,
    AfterEvent, AfterStep, AfterFrame, Run) and to keep the invariant ValidWorld. The parts
    of Step keep no invariant of their own: Prepare, MovePlayer, Escalate and Spawn are
    proved against Prepared, Moved, Escalated and Spawned; Resolve, AdvanceAt,
    AdvanceNeedles and RemoveMarked against the needle and collision functions. */
module Session {
  import opened Config
  import opened Sequences
  import opened Needles
  import opened Geometry
  import opened Collision
  import opened Rules
  import opened Properties

  /** One round of the advancing loop over a list whose first `i` needles have already
      fallen: the next needle falls, and the hit test and the off-screen list each grow by
      what that needle contributes. */
  lemma AdvanceOneMore(spawned: seq<Needle>, i: nat, e: seq<Needle>, e': seq<Needle>, px: real, py: real)
    requires i < |spawned|
    requires e == AdvanceAll(spawned[..i]) + spawned[i..]
    requires e' == e[i := Advanced(e[i])]
    ensures |e'| == |spawned|
    ensures e' == AdvanceAll(spawned[..i + 1]) + spawned[i + 1..]
    ensures Marked(e'[..i + 1]) == Marked(e[..i]) + Marked([e'[i]])
    ensures AnyCollision(px, py, e'[..i + 1]) <==> AnyCollision(px, py, e[..i]) || IsCollision(px, py, e'[i])
  {
    assert e[..i] == AdvanceAll(spawned[..i]);
    AdvanceAllAppend(spawned[..i], spawned[i]);
    assert spawned[..i + 1] == spawned[..i] + [spawned[i]];
    assert e'[..i + 1] == e[..i] + [e'[i]];
    MarkedAppend(e[..i], [e'[i]]);
    AnyCollisionAppend(px, py, e[..i], e'[i]);
  }

  class GameSession {
    var playerX: real
    var playerY: real
    var enemies: seq<Needle>
    var score: nat
    var baseEnemySpeed: real
    var baseSpawnRate: int
    var lastSpawnTime: int
    var lastDifficultyIncreaseTime: int
    var state: GameState
    var running: bool

    /** The globals as one value. */
    function Snapshot(): World
      reads this
    {
      World(playerX, playerY, enemies, score, baseEnemySpeed, baseSpawnRate,
            lastSpawnTime, lastDifficultyIncreaseTime, state, running)
    }

    ghost predicate Valid()
      reads this
    {
      ValidWorld(Snapshot())
    }

    /** Program start-up: the start menu, the two timers started at the ticks read for them. */
    constructor (spawnTick: int, difficultyTick: int)
      ensures Valid() && Snapshot() == Initial(spawnTick, difficultyTick)
    {
      playerX := StartX;
      playerY := StartY;
      enemies := [];
      score := 0;
      baseEnemySpeed := InitialEnemySpeed;
      baseSpawnRate := InitialSpawnRate;
      lastSpawnTime := spawnTick;
      lastDifficultyIncreaseTime := difficultyTick;
      state := StartMenu;
      running := true;
    }

    method ResetGame()
      requires Valid()
      modifies this
      ensures Valid() && Snapshot() == Reset(old(Snapshot()))
    {
      playerX := StartX;
      playerY := StartY;
      score := 0;
      enemies := [];
      baseEnemySpeed := InitialEnemySpeed;
      baseSpawnRate := InitialSpawnRate;
      state := Playing;
    }

    /** One event of `pygame.event.get()`. */
    method HandleEvent(e: Event)
      requires Valid()
      modifies this
      ensures Valid() && Snapshot() == AfterEvent(old(Snapshot()), e)
    {
      EventPreservesValid(Snapshot(), e);
      match e {
        case QuitEvent =>
          running := false;
        case MouseDown(mx, my) =>
          var x, y := mx as real, my as real;
          if state == StartMenu {
            if ContainsPoint(StartButton, x, y) {
              state := Playing;
            } else if ContainsPoint(MenuQuitButton, x, y) {
              running := false;
            }
          } else if state == GameOver {
            if ContainsPoint(RetryButton, x, y) {
              ResetGame();
            } else if ContainsPoint(GameOverQuitButton, x, y) {
              running := false;
            }
          }
        case OtherEvent =>
      }
    }

    /** The PLAYING branch of one frame, with `now` from `pygame.time.get_ticks()`, the arrow
        keys, and `spawnX` in place of `random.randint(0, 1490)`. */
    method Step(now: int, left: bool, right: bool, up: bool, down: bool, spawnX: int)
      requires Valid() && state == Playing
      requires 0 <= spawnX <= MaxSpawnX
      modifies this
      ensures Valid()
      ensures Snapshot() == AfterStep(old(Snapshot()), now, Keys(left, right, up, down), spawnX)
    {
      ghost var w := Snapshot();
      StepPreservesValid(w, now, Keys(left, right, up, down), spawnX);
      Prepare(now, left, right, up, down, spawnX);
      Resolve();
    }

    /** Everything the PLAYING branch does before its first loop: movement, escalation and
        spawning. */
    method Prepare(now: int, left: bool, right: bool, up: bool, down: bool, spawnX: int)
      requires 0 <= spawnX <= MaxSpawnX
      modifies this
      ensures Snapshot() == Prepared(old(Snapshot()), now, Keys(left, right, up, down), spawnX)
    {
      MovePlayer(left, right, up, down);
      Escalate(now);
      Spawn(now, spawnX);
    }

    /** The two loops of the PLAYING branch: advance and test every needle, then remove the
        ones past the bottom edge, one point each. */
    method Resolve()
      requires state == Playing
      modifies this
      ensures var f := AdvanceAll(old(enemies));
        Snapshot() == old(Snapshot()).(enemies := Survivors(f), score := old(score) + |Marked(f)|,
                                       state := if AnyCollision(playerX, playerY, f) then GameOver else Playing)
    {
      var toRemove := AdvanceNeedles();
      RemoveMarked(toRemove);
    }

    /** Keyboard movement, then clamping into the screen. */
    method MovePlayer(left: bool, right: bool, up: bool, down: bool)
      modifies this`playerX, this`playerY
      ensures Snapshot() == Moved(old(Snapshot()), Keys(left, right, up, down))
    {
      if left { playerX := playerX - PlayerSpeed; }
      if right { playerX := playerX + PlayerSpeed; }
      if up { playerY := playerY - PlayerSpeed; }
      if down { playerY := playerY + PlayerSpeed; }
      playerX := Clamp(playerX, MaxPlayerX);
      playerY := Clamp(playerY, MaxPlayerY);
    }

    /** Difficulty escalation. */
    method Escalate(now: int)
      modifies this`baseEnemySpeed, this`baseSpawnRate, this`lastDifficultyIncreaseTime
      ensures Snapshot() == Escalated(old(Snapshot()), now)
    {
      if now - lastDifficultyIncreaseTime > EscalationPeriod {
        baseEnemySpeed := baseEnemySpeed + SpeedStep;
        baseSpawnRate := LoweredRate(baseSpawnRate);
        lastDifficultyIncreaseTime := now;
      }
    }

    /** Spawning at most one needle. */
    method Spawn(now: int, spawnX: int)
      requires 0 <= spawnX <= MaxSpawnX
      modifies this`enemies, this`lastSpawnTime
      ensures Snapshot() == Spawned(old(Snapshot()), now, spawnX)
    {
      if now - lastSpawnTime > baseSpawnRate {
        enemies := enemies + [Needle(spawnX, 0.0, baseEnemySpeed)];
        lastSpawnTime := now;
      }
    }

    /** The first loop: advance every needle in place, test it against the balloon (a hit
        sets GAME_OVER and the loop goes on), and list the needles past the bottom edge. */
    method AdvanceNeedles() returns (toRemove: seq<Needle>)
      requires state == Playing
      modifies this`enemies, this`state
      ensures enemies == AdvanceAll(old(enemies)) && toRemove == Marked(enemies)
      ensures state == if AnyCollision(playerX, playerY, enemies) then GameOver else Playing
    {
      toRemove := [];
      ghost var spawned := enemies;
      var i := 0;
      while i < |enemies|
        invariant 0 <= i <= |enemies| == |spawned|
        invariant enemies == AdvanceAll(spawned[..i]) + spawned[i..]
        invariant toRemove == Marked(enemies[..i])
        invariant state == if AnyCollision(playerX, playerY, enemies[..i]) then GameOver else Playing
      {
        ghost var before := enemies;
        AdvanceAt(i);
        AdvanceOneMore(spawned, i, before, enemies, playerX, playerY);
        if OffScreen(enemies[i]) {
          toRemove := toRemove + [enemies[i]];
        }
        i := i + 1;
      }
      assert spawned[..i] == spawned && enemies[..i] == enemies;
    }

    /** The body of the first loop for the needle at `i`: `enemy[1] += enemy[2]`, then the
        hit test against the balloon. */
    method AdvanceAt(i: nat)
      requires i < |enemies|
      modifies this`enemies, this`state
      ensures enemies == old(enemies)[i := Advanced(old(enemies)[i])]
      ensures state == if IsCollision(playerX, playerY, enemies[i]) then GameOver else old(state)
    {
      enemies := enemies[i := Advanced(enemies[i])];
      if IsCollision(playerX, playerY, enemies[i]) {
        state := GameOver;
      }
    }

    /** The second loop: `enemies.remove(enemy)` and one point for each listed needle. */
    method RemoveMarked(toRemove: seq<Needle>)
      requires toRemove == Marked(enemies)
      modifies this`enemies, this`score
      ensures enemies == Survivors(old(enemies))
      ensures score == old(score) + |toRemove|
    {
      ghost var flight := enemies;
      DropMarkedNone(flight);
      var k := 0;
      while k < |toRemove|
        invariant 0 <= k <= |toRemove|
        invariant enemies == DropMarked(flight, k)
        invariant score == old(score) + k
      {
        DropMarkedNext(flight, k);
        enemies := RemoveFirst(enemies, toRemove[k]);
        score := score + 1;
        k := k + 1;
      }
      DropMarkedAll(flight);
    }

    /** One pass of the main loop: every event, then the PLAYING branch if the game is being
        played. */
    method RunFrame(f: FrameInput)
      requires Valid() && InputOk(f)
      modifies this
      ensures Valid() && Snapshot() == AfterFrame(old(Snapshot()), f)
    {
      var i := 0;
      while i < |f.events|
        invariant 0 <= i <= |f.events|
        invariant Valid() && Snapshot() == AfterEvents(old(Snapshot()), f.events[..i])
      {
        HandleEvent(f.events[i]);
        assert f.events[..i + 1][..i] == f.events[..i];
        i := i + 1;
      }
      assert f.events[..i] == f.events;
      if state == Playing {
        Step(f.now, f.keys.left, f.keys.right, f.keys.up, f.keys.down, f.spawnX);
      }
    }

    /** `while running`: frames are played until the loop stops or the inputs run out. */
    method Play(frames: seq<FrameInput>) returns (played: nat)
      requires Valid()
      requires forall i :: 0 <= i < |frames| ==> InputOk(frames[i])
      modifies this
      ensures Valid() && Snapshot() == Run(old(Snapshot()), frames)
      ensures played <= |frames| && (played < |frames| ==> !running)
    {
      played := 0;
      while played < |frames| && running
        invariant 0 <= played <= |frames|
        invariant Valid()
        invariant Run(old(Snapshot()), frames) == Run(Snapshot(), frames[played..])
      {
        RunFrame(frames[played]);
        assert frames[played..][1..] == frames[played + 1..];
        played := played + 1;
      }
    }
  }
}
