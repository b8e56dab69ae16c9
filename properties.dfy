/** What the rules of rules.dfy promise, one frame at a time and over whole runs. */
module Properties {
  import opened Config
  import opened Geometry
  import opened Needles
  import opened Collision
  import opened Rules

  // ---------------------------------------------------------------- the PLAYING step

  /** Steps 1 to 3 keep every needle that was there and add at most the fresh one. */
  lemma PreparedEnemies(w: World, now: int, keys: Keys, spawnX: int)
    requires 0 <= spawnX <= MaxSpawnX
    ensures var e := Escalated(Moved(w, keys), now);
      Prepared(w, now, keys, spawnX).enemies ==
        if SpawnDue(e, now) then w.enemies + [Fresh(e, spawnX)] else w.enemies
  {
  }

  /** Between frames the globals stay consistent: the balloon on screen, the spawn interval
      in [50, 200], the base speed at least 0.5, and every needle spawned within the
      screen's width, on screen, and no faster than the current base speed. */
  lemma StepPreservesValid(w: World, now: int, keys: Keys, spawnX: int)
    requires ValidWorld(w) && 0 <= spawnX <= MaxSpawnX
    ensures ValidWorld(AfterStep(w, now, keys, spawnX))
  {
    var m := Moved(w, keys);
    var e := Escalated(m, now);
    var p := Prepared(w, now, keys, spawnX);
    var f := AdvanceAll(p.enemies);
    var r := AfterStep(w, now, keys, spawnX);
    assert ValidWorld(e);
    forall n | n in p.enemies
      ensures 0 <= n.x <= MaxSpawnX && InitialEnemySpeed <= n.speed <= p.baseEnemySpeed && 0.0 <= n.y
    {
      if n !in e.enemies {
        assert n == Fresh(e, spawnX);
      }
    }
    forall n | n in r.enemies
      ensures NeedleOk(n, r.baseEnemySpeed)
    {
      assert n in f && !OffScreen(n);
      var i :| 0 <= i < |f| && f[i] == n;
      assert p.enemies[i] in p.enemies;
    }
  }

  /** The score rises by exactly the number of needles removed: whatever was there, plus the
      fresh needle if one spawned, minus what is left. It never falls. */
  lemma StepScoreCountsRemoved(w: World, now: int, keys: Keys, spawnX: int)
    requires 0 <= spawnX <= MaxSpawnX
    ensures var e := Escalated(Moved(w, keys), now);
      var r := AfterStep(w, now, keys, spawnX);
      r.score + |r.enemies| == w.score + |w.enemies| + (if SpawnDue(e, now) then 1 else 0) &&
      r.score >= w.score
  {
    SurvivorsMarkedPartition(Flight(w, now, keys, spawnX));
  }

  /** The needles kept are exactly the advanced needles still on screen (y <= 800), in
      their order; those removed are exactly the ones past the bottom edge. */
  lemma StepReapsOffScreen(w: World, now: int, keys: Keys, spawnX: int)
    requires 0 <= spawnX <= MaxSpawnX
    ensures var f := Flight(w, now, keys, spawnX);
      var r := AfterStep(w, now, keys, spawnX);
      (forall n :: n in r.enemies <==> n in f && n.y <= ScreenHeight as real) &&
      (forall n :: n in Marked(f) <==> n in f && n.y > ScreenHeight as real) &&
      (forall i :: 0 <= i < |f| && f[i].y <= ScreenHeight as real ==>
         r.enemies == Survivors(f[..i]) + [f[i]] + Survivors(f[i + 1..]))
  {
    var f := Flight(w, now, keys, spawnX);
    assert AfterStep(w, now, keys, spawnX).enemies == Survivors(f);
    forall i | 0 <= i < |f| && f[i].y <= ScreenHeight as real
      ensures Survivors(f) == Survivors(f[..i]) + [f[i]] + Survivors(f[i + 1..])
    {
      SurvivorsAround(f, i);
    }
  }

  /** Each needle falls by its own stored speed, not by the base speed, which an escalation
      in the same frame may just have raised; it stays if and only if it is still on screen. */
  lemma StepMovesEachNeedle(w: World, now: int, keys: Keys, spawnX: int, i: int)
    requires 0 <= spawnX <= MaxSpawnX
    requires 0 <= i < |w.enemies|
    ensures var n := w.enemies[i];
      var moved := Needle(n.x, n.y + n.speed, n.speed);
      Flight(w, now, keys, spawnX)[i] == moved &&
      (moved in AfterStep(w, now, keys, spawnX).enemies <==> moved.y <= ScreenHeight as real)
  {
    PreparedEnemies(w, now, keys, spawnX);
    var f := Flight(w, now, keys, spawnX);
    assert f[i] in f;
  }

  /** When strictly more than the spawn interval has passed, exactly one needle is added:
      at the spawn position, at the top edge, at the (possibly just escalated) base speed,
      and it has already fallen once this frame. Otherwise no needle is added. */
  lemma StepSpawnsAtMostOne(w: World, now: int, keys: Keys, spawnX: int)
    requires 0 <= spawnX <= MaxSpawnX
    ensures var e := Escalated(Moved(w, keys), now);
      var f := Flight(w, now, keys, spawnX);
      var r := AfterStep(w, now, keys, spawnX);
      (SpawnDue(e, now) ==>
         |f| == |w.enemies| + 1 &&
         f[|w.enemies|] == Needle(spawnX, e.baseEnemySpeed, e.baseEnemySpeed) &&
         r.lastSpawnTime == now) &&
      (!SpawnDue(e, now) ==> |f| == |w.enemies| && r.lastSpawnTime == w.lastSpawnTime)
  {
    PreparedEnemies(w, now, keys, spawnX);
  }

  /** Escalation happens only strictly after 10000 ticks: then the base speed grows by
      exactly 0.05, the spawn interval drops by 10 but not below 50, and the escalation time
      becomes `now`; otherwise all three are unchanged. */
  lemma StepEscalates(w: World, now: int, keys: Keys, spawnX: int)
    requires ValidWorld(w) && 0 <= spawnX <= MaxSpawnX
    ensures var r := AfterStep(w, now, keys, spawnX);
      MinSpawnRate <= r.baseSpawnRate <= w.baseSpawnRate &&
      w.baseEnemySpeed <= r.baseEnemySpeed &&
      (now - w.lastDifficultyIncreaseTime > EscalationPeriod ==>
         r.baseEnemySpeed == w.baseEnemySpeed + SpeedStep &&
         r.baseSpawnRate == (if w.baseSpawnRate - SpawnRateStep < MinSpawnRate then MinSpawnRate
                             else w.baseSpawnRate - SpawnRateStep) &&
         r.lastDifficultyIncreaseTime == now) &&
      (now - w.lastDifficultyIncreaseTime <= EscalationPeriod ==>
         r.baseEnemySpeed == w.baseEnemySpeed && r.baseSpawnRate == w.baseSpawnRate &&
         r.lastDifficultyIncreaseTime == w.lastDifficultyIncreaseTime)
  {
  }

  /** The balloon moves 1.5 per pressed key and is clamped into the screen; opposite keys
      pressed together cancel out. */
  lemma StepMovesBalloon(w: World, now: int, keys: Keys, spawnX: int)
    requires ValidWorld(w) && 0 <= spawnX <= MaxSpawnX
    ensures var r := AfterStep(w, now, keys, spawnX);
      0.0 <= r.playerX <= MaxPlayerX && 0.0 <= r.playerY <= MaxPlayerY &&
      (keys.left == keys.right ==> r.playerX == w.playerX) &&
      (keys.up == keys.down ==> r.playerY == w.playerY) &&
      (keys.left && !keys.right ==> r.playerX == if w.playerX < PlayerSpeed then 0.0 else w.playerX - PlayerSpeed) &&
      (keys.right && !keys.left ==> r.playerX == if MaxPlayerX < w.playerX + PlayerSpeed then MaxPlayerX else w.playerX + PlayerSpeed) &&
      (keys.up && !keys.down ==> r.playerY == if w.playerY < PlayerSpeed then 0.0 else w.playerY - PlayerSpeed) &&
      (keys.down && !keys.up ==> r.playerY == if MaxPlayerY < w.playerY + PlayerSpeed then MaxPlayerY else w.playerY + PlayerSpeed)
  {
  }

  /** The round ends in this frame if and only if some needle, once advanced, hits the
      balloon at its new position; several hits end it just the same, and the removal and
      scoring still run. */
  lemma StepEndsRoundOnHit(w: World, now: int, keys: Keys, spawnX: int)
    requires w.state == Playing && 0 <= spawnX <= MaxSpawnX
    ensures var r := AfterStep(w, now, keys, spawnX);
      var f := Flight(w, now, keys, spawnX);
      (r.state == GameOver <==> AnyCollision(r.playerX, r.playerY, f)) &&
      (r.state != GameOver ==> r.state == Playing)
  {
  }

  /** A needle already past the bottom edge cannot hit a balloon that is on screen, so
      reaping it in the same frame never hides a hit. */
  lemma OffScreenNeedleCannotHit(px: real, py: real, n: Needle)
    requires 0.0 <= py <= MaxPlayerY
    requires OffScreen(n)
    ensures !IsCollision(px, py, n)
  {
    NeedleBelowMisses(px, py, n);
  }

  // ---------------------------------------------------------------- clicks and events

  /** The two buttons of each screen do not overlap, so the order of the tests is immaterial. */
  lemma ButtonsDisjoint(mx: int, my: int)
    ensures !(ContainsPoint(StartButton, mx as real, my as real) && ContainsPoint(MenuQuitButton, mx as real, my as real))
    ensures !(ContainsPoint(RetryButton, mx as real, my as real) && ContainsPoint(GameOverQuitButton, mx as real, my as real))
  {
  }

  /** The start button does not call `reset_game`, but on the world the program starts with
      it makes no difference: starting is the same as resetting. */
  lemma StartMatchesReset(spawnTick: int, difficultyTick: int, mx: int, my: int)
    requires ContainsPoint(StartButton, mx as real, my as real)
    ensures var w := Initial(spawnTick, difficultyTick); AfterClick(w, mx, my) == Reset(w)
  {
  }

  /** Retry starts a fresh round: zero score, no needles, initial difficulty, the balloon at
      (730, 710), but with the old timestamps. */
  lemma RetryResets(w: World, mx: int, my: int)
    requires w.state == GameOver && ContainsPoint(RetryButton, mx as real, my as real)
    ensures var r := AfterClick(w, mx, my);
      r.state == Playing && r.score == 0 && r.enemies == [] &&
      r.playerX == 730.0 && r.playerY == 710.0 &&
      r.baseEnemySpeed == 0.5 && r.baseSpawnRate == 200 &&
      r.lastSpawnTime == w.lastSpawnTime && r.lastDifficultyIncreaseTime == w.lastDifficultyIncreaseTime
  {
  }

  /** A press anywhere else than on a button, or any press while playing, changes nothing. */
  lemma MissedClickIsIgnored(w: World, mx: int, my: int)
    requires w.state == Playing ||
      (!ContainsPoint(StartButton, mx as real, my as real) && !ContainsPoint(MenuQuitButton, mx as real, my as real) &&
       !ContainsPoint(RetryButton, mx as real, my as real) && !ContainsPoint(GameOverQuitButton, mx as real, my as real))
    ensures AfterClick(w, mx, my) == w
  {
  }

  /** Either quit button, on its own screen, ends the loop and changes nothing else. */
  lemma QuitButtonsEndLoop(w: World, mx: int, my: int)
    requires (w.state == StartMenu && ContainsPoint(MenuQuitButton, mx as real, my as real)) ||
             (w.state == GameOver && ContainsPoint(GameOverQuitButton, mx as real, my as real))
    ensures AfterClick(w, mx, my) == w.(running := false)
  {
    ButtonsDisjoint(mx, my);
  }

  /** In the start menu the start button switches to PLAYING and changes nothing else, from
      any start-menu state (even one whose loop a close event has already stopped). */
  lemma StartOnlySetsPlaying(w: World, mx: int, my: int)
    requires w.state == StartMenu && ContainsPoint(StartButton, mx as real, my as real)
    ensures AfterClick(w, mx, my) == w.(state := Playing)
  {
  }

  /** The window's close event stops the loop and changes nothing else. */
  lemma CloseStops(w: World)
    ensures AfterEvent(w, QuitEvent) == w.(running := false)
  {
  }

  lemma EventPreservesValid(w: World, e: Event)
    requires ValidWorld(w)
    ensures ValidWorld(AfterEvent(w, e))
  {
  }

  lemma {:induction false} EventsPreserveValid(w: World, es: seq<Event>)
    requires ValidWorld(w)
    ensures ValidWorld(AfterEvents(w, es))
  {
    if es != [] {
      EventsPreserveValid(w, es[..|es| - 1]);
      EventPreservesValid(AfterEvents(w, es[..|es| - 1]), es[|es| - 1]);
    }
  }

  /** No event leads back to the start menu, and no event leaves a round in progress. */
  lemma {:induction false} EventsKeepState(w: World, es: seq<Event>)
    ensures w.state != StartMenu ==> AfterEvents(w, es).state != StartMenu
    ensures w.state == Playing ==> AfterEvents(w, es) == w.(running := AfterEvents(w, es).running)
  {
    if es != [] {
      EventsKeepState(w, es[..|es| - 1]);
    }
  }

  // ---------------------------------------------------------------- frames and runs

  lemma FramePreservesValid(w: World, f: FrameInput)
    requires ValidWorld(w) && InputOk(f)
    ensures ValidWorld(AfterFrame(w, f))
  {
    EventsPreserveValid(w, f.events);
    var v := AfterEvents(w, f.events);
    if v.state == Playing {
      StepPreservesValid(v, f.now, f.keys, f.spawnX);
    }
  }

  /** During a round the score never falls, the base speed never falls and the spawn
      interval never rises. */
  lemma FrameMonotoneWhilePlaying(w: World, f: FrameInput)
    requires ValidWorld(w) && InputOk(f) && w.state == Playing
    ensures var r := AfterFrame(w, f);
      r.score >= w.score && r.baseEnemySpeed >= w.baseEnemySpeed && r.baseSpawnRate <= w.baseSpawnRate
  {
    EventsKeepState(w, f.events);
    var v := AfterEvents(w, f.events);
    StepScoreCountsRemoved(v, f.now, f.keys, f.spawnX);
    StepEscalates(v, f.now, f.keys, f.spawnX);
  }

  /** Starting from the program's initial state, no sequence of frames reaches a state where
      the balloon is off screen, the difficulty is outside its range, or a needle is
      inconsistent. */
  lemma {:induction false} RunPreservesValid(w: World, frames: seq<FrameInput>)
    requires ValidWorld(w)
    requires forall i :: 0 <= i < |frames| ==> InputOk(frames[i])
    ensures ValidWorld(Run(w, frames))
    decreases |frames|
  {
    if frames != [] && w.running {
      FramePreservesValid(w, frames[0]);
      RunPreservesValid(AfterFrame(w, frames[0]), frames[1..]);
    }
  }

  /** Once the menu is left it is never shown again. */
  lemma {:induction false} RunNeverReturnsToMenu(w: World, frames: seq<FrameInput>)
    requires w.state != StartMenu
    requires forall i :: 0 <= i < |frames| ==> InputOk(frames[i])
    ensures Run(w, frames).state != StartMenu
    decreases |frames|
  {
    if frames != [] && w.running {
      EventsKeepState(w, frames[0].events);
      RunNeverReturnsToMenu(AfterFrame(w, frames[0]), frames[1..]);
    }
  }

  /** Outside a round, a frame's events either start one (start or retry) or change at most
      `running`. */
  lemma {:induction false} EventsOutsidePlay(w: World, es: seq<Event>)
    requires w.state != Playing
    ensures var v := AfterEvents(w, es); v.state == Playing || v == w.(running := v.running)
  {
    if es != [] {
      EventsOutsidePlay(w, es[..|es| - 1]);
    }
  }

  /** A frame that does not start a round leaves the needles, the score, the difficulty, the
      timers and the balloon exactly as they were: the PLAYING branch does not run, and only
      `running` may change. This is why the game-over screen shows the final score. */
  lemma FrameFrozenOutsidePlay(w: World, f: FrameInput)
    requires InputOk(f) && w.state != Playing && AfterEvents(w, f.events).state != Playing
    ensures AfterFrame(w, f) == w.(running := AfterFrame(w, f).running)
  {
    EventsOutsidePlay(w, f.events);
  }

  /** While a run stays in the start menu nothing but `running` changes, so the start click
      reaches PLAYING with the values the menu was entered with. */
  lemma {:induction false} MenuRunFrozen(w: World, frames: seq<FrameInput>)
    requires w.state == StartMenu
    requires forall i :: 0 <= i < |frames| ==> InputOk(frames[i])
    ensures var r := Run(w, frames); r.state == StartMenu ==> r == w.(running := r.running)
    decreases |frames|
  {
    if frames != [] && w.running {
      var v := AfterFrame(w, frames[0]);
      EventsOutsidePlay(w, frames[0].events);
      if v.state == StartMenu {
        MenuRunFrozen(v, frames[1..]);
      } else {
        RunNeverReturnsToMenu(v, frames[1..]);
      }
    }
  }

  /** `reset_game` leaves the escalation timestamp alone: a retry pressed more than ten
      seconds after the last escalation escalates again in the very first frame of the new
      round, so that round starts at speed 0.55 and interval 190, not 0.5 and 200. */
  lemma RetryAfterPauseEscalatesAtOnce(w: World, mx: int, my: int, now: int, keys: Keys, spawnX: int)
    requires w.state == GameOver && ContainsPoint(RetryButton, mx as real, my as real)
    requires now - w.lastDifficultyIncreaseTime > EscalationPeriod
    requires 0 <= spawnX <= MaxSpawnX
    ensures var r := AfterFrame(w, FrameInput([MouseDown(mx, my)], now, keys, spawnX));
      r.baseEnemySpeed == 0.55 && r.baseSpawnRate == 190 && r.lastDifficultyIncreaseTime == now
  {
    var es := [MouseDown(mx, my)];
    assert es[..|es| - 1] == [];
    assert AfterEvents(w, es[..|es| - 1]) == w;
    var v := AfterEvents(w, es);
    assert v == AfterClick(w, mx, my);
    assert v == Reset(w);
    StepEscalates(v, now, keys, spawnX);
  }
}
