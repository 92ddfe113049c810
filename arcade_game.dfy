/** The arcade prototype's frame loop (src/components/RhineCruiseGame.tsx, duplicated in
    src/components/RhineCruiseGame.js): each phase is a loop proved against its rule in
    `ArcadeRules`, and the game object runs them in the loop's order. */
module ArcadeGame {
  import opened Resources
  import opened ArcadeRules

  /** The state cells of the game, and the timing values the loop keeps between frames. */
  datatype Frame = Frame(
    gameStarted: bool,
    gameOver: bool,
    score: real,
    position: Position,
    health: real,
    currentPort: int,
    souvenirs: seq<Keepsake>,
    obstacles: seq<Obstacle>,
    activePowerUps: seq<PowerUp>,
    installed: seq<Installed>,
    bullets: seq<Bullet>,
    keys: map<string, bool>,
    lastObstacleTime: real,
    lastPowerUpTime: real,
    lastTimestamp: real)

  /** The frame counter used for movement: elapsed milliseconds over 16, or 1 on the first frame. */
  function DeltaTime(lastTimestamp: real, timestamp: real): real
  {
    if lastTimestamp != 0.0 then (timestamp - lastTimestamp) / 16.0 else 1.0
  }

  /** Movement phase: the ship moves by the held keys. */
  function MovePhase(f: Frame, dt: real): Frame
  {
    f.(position := MovePlayer(f.position, f.keys, f.installed, dt))
  }

  /** Spawn phase: a spawn round for obstacles once more than 1000 ms have passed since the
      last one, and for power-ups after 2000 ms; each round restarts its clock. */
  function SpawnPhase(f: Frame, timestamp: real, obstacleDraws: seq<Draw>, powerUpDraws: seq<Draw>): Frame
    requires |obstacleDraws| == |obstacleTemplates| && |powerUpDraws| == |powerUpTemplates|
  {
    var f1 := if timestamp - f.lastObstacleTime > 1000.0
      then f.(obstacles := f.obstacles + SpawnObstacles(obstacleTemplates, obstacleDraws), lastObstacleTime := timestamp)
      else f;
    if timestamp - f1.lastPowerUpTime > 2000.0
      then f1.(activePowerUps := f1.activePowerUps + SpawnPowerUps(powerUpTemplates, powerUpDraws), lastPowerUpTime := timestamp)
      else f1
  }

  /** Advance phase: obstacles, power-ups and bullets move and leave the area; held power-ups
      expire. */
  function AdvancePhase(f: Frame, dt: real, now: int): Frame
  {
    f.(obstacles := AdvanceObstacles(f.obstacles, dt),
       activePowerUps := AdvancePowerUps(f.activePowerUps, dt),
       installed := Expire(f.installed, now),
       bullets := AdvanceBullets(f.bullets, dt))
  }

  /** Obstacle half of `checkCollisions`. */
  function ObstaclePhase(f: Frame): Frame
  {
    var c := ResolveObstacles(f.obstacles, Combat([], f.bullets, f.score, f.health), ShipRect(f.position),
                              FindEffect(f.installed, Invulnerability).Some?);
    f.(obstacles := c.obstacles, bullets := c.bullets, score := c.score, health := c.health)
  }

  /** Power-up half of `checkCollisions`. */
  function PickupPhase(f: Frame, now: int): Frame
  {
    var k := Pickups(f.activePowerUps, Pickup([], f.installed, f.health), ShipRect(f.position), now);
    f.(activePowerUps := k.activePowerUps, installed := k.installed, health := k.health)
  }

  /** Port phase: `checkPortReached`. */
  function PortPhase(f: Frame): Frame
    requires 0 <= f.currentPort
  {
    var g := ReachPort(Progress(f.currentPort, f.souvenirs, f.score), ShipRect(f.position), f.installed);
    f.(currentPort := g.currentPort, souvenirs := g.souvenirs, score := g.score)
  }

  /** One frame of the loop, phases in order: move, spawn, advance, resolve obstacles, pick up
      power-ups, reach a port, then end the game at zero health. A stopped or finished game is
      left alone. */
  function FrameStep(f: Frame, timestamp: real, now: int, obstacleDraws: seq<Draw>, powerUpDraws: seq<Draw>): Frame
    requires |obstacleDraws| == |obstacleTemplates| && |powerUpDraws| == |powerUpTemplates|
    requires 0 <= f.currentPort
  {
    if !f.gameStarted || f.gameOver then f
    else
      var dt := DeltaTime(f.lastTimestamp, timestamp);
      var f1 := MovePhase(f.(lastTimestamp := timestamp), dt);
      var f2 := SpawnPhase(f1, timestamp, obstacleDraws, powerUpDraws);
      var f3 := AdvancePhase(f2, dt, now);
      var f4 := PickupPhase(ObstaclePhase(f3), now);
      var f5 := PortPhase(f4);
      f5.(gameOver := f5.health <= 0.0)
  }

  /** The frame invariant: the port counter matches the souvenirs and stays on the map, health
      is capped, the ship is inside the area, held power-ups are one per effect and never a
      repair kit, obstacles deal no negative damage and power-up values are positive. */
  predicate Valid(f: Frame)
  {
    && 0 <= f.currentPort < 9
    && |f.souvenirs| == f.currentPort
    && f.health <= PlayerInitialHealth
    && 0.0 <= f.position.x <= GameWidth - 50.0 && 0.0 <= f.position.y <= GameHeight - 50.0
    && OnePerEffect(f.installed)
    && (forall i :: i in f.installed ==> i.powerUp.effect != Health && i.powerUp.value > 0.0)
    && (forall o :: o in f.obstacles ==> o.damage >= 0.0)
    && (forall p :: p in f.activePowerUps ==> p.value > 0.0)
  }

  /** Spawned entities carry their template's damage and value. */
  lemma SpawnedFacts(obstacleDraws: seq<Draw>, powerUpDraws: seq<Draw>)
    requires |obstacleDraws| == |obstacleTemplates| && |powerUpDraws| == |powerUpTemplates|
    ensures forall o :: o in SpawnObstacles(obstacleTemplates, obstacleDraws) ==> o.damage >= 0.0
    ensures forall p :: p in SpawnPowerUps(powerUpTemplates, powerUpDraws) ==> p.value > 0.0
  {
    TemplateFacts();
  }

  /** Expiry only drops held power-ups, so it keeps one per effect. */
  lemma {:induction false} ExpireKeepsOnePerEffect(installed: seq<Installed>, now: int)
    requires OnePerEffect(installed)
    ensures OnePerEffect(Expire(installed, now))
    decreases |installed|
  {
    if installed != [] {
      var n := |installed| - 1;
      assert OnePerEffect(installed[..n]);
      ExpireKeepsOnePerEffect(installed[..n], now);
      var e := Expire(installed[..n], now);
      if Live(installed[n], now) {
        forall i | 0 <= i < |e|
          ensures e[i].powerUp.effect != installed[n].powerUp.effect
        {
          assert e[i] in installed[..n];
        }
      }
    }
  }

  lemma SpawnPhaseKeepsValid(f: Frame, timestamp: real, obstacleDraws: seq<Draw>, powerUpDraws: seq<Draw>)
    requires |obstacleDraws| == |obstacleTemplates| && |powerUpDraws| == |powerUpTemplates|
    requires Valid(f)
    ensures Valid(SpawnPhase(f, timestamp, obstacleDraws, powerUpDraws))
    ensures SpawnPhase(f, timestamp, obstacleDraws, powerUpDraws).score == f.score
    ensures SpawnPhase(f, timestamp, obstacleDraws, powerUpDraws).currentPort == f.currentPort
    ensures SpawnPhase(f, timestamp, obstacleDraws, powerUpDraws).souvenirs == f.souvenirs
  {
    SpawnedFacts(obstacleDraws, powerUpDraws);
  }

  lemma AdvancePhaseKeepsValid(f: Frame, dt: real, now: int)
    requires Valid(f)
    ensures Valid(AdvancePhase(f, dt, now))
    ensures AdvancePhase(f, dt, now).score == f.score
  {
    var t := AdvancePhase(f, dt, now);
    ExpireKeepsOnePerEffect(f.installed, now);
    forall o | o in t.obstacles ensures o.damage >= 0.0 {
      var i :| 0 <= i < |f.obstacles| && o == MovedObstacle(f.obstacles[i], dt);
      assert f.obstacles[i] in f.obstacles;
    }
    forall p | p in t.activePowerUps ensures p.value > 0.0 {
      var i :| 0 <= i < |f.activePowerUps| && p == MovedPowerUp(f.activePowerUps[i], dt);
      assert f.activePowerUps[i] in f.activePowerUps;
    }
  }

  lemma ObstaclePhaseKeepsValid(f: Frame)
    requires Valid(f)
    ensures Valid(ObstaclePhase(f))
    ensures ObstaclePhase(f).score >= f.score
  {
    var inv := FindEffect(f.installed, Invulnerability).Some?;
    forall k | 0 <= k < |f.obstacles| ensures f.obstacles[k].damage >= 0.0 {
      assert f.obstacles[k] in f.obstacles;
    }
    ResolutionClears(f.obstacles, f.bullets, f.score, f.health, ShipRect(f.position), inv);
  }

  lemma PickupPhaseKeepsValid(f: Frame, now: int)
    requires Valid(f)
    ensures Valid(PickupPhase(f, now))
    ensures PickupPhase(f, now).score == f.score
  {
    PickupsKeepInvariants(f.activePowerUps, f.installed, f.health, ShipRect(f.position), now);
    PickupValues(f.activePowerUps, f.installed, f.health, ShipRect(f.position), now);
  }

  lemma PortPhaseKeepsValid(f: Frame)
    requires Valid(f)
    ensures Valid(PortPhase(f))
    ensures PortPhase(f).score >= f.score
    ensures f.currentPort <= PortPhase(f).currentPort <= f.currentPort + 1
    ensures PortPhase(f).souvenirs[..|f.souvenirs|] == f.souvenirs
  {
    PortFacts();
    PortProgress(Progress(f.currentPort, f.souvenirs, f.score), ShipRect(f.position), f.installed);
    MultiplierPositive(f.installed);
  }

  /** A frame keeps the invariant, never lowers the score, moves the port counter by at most
      one and only appends souvenirs. */
  lemma FrameStepKeepsValid(f: Frame, timestamp: real, now: int, obstacleDraws: seq<Draw>, powerUpDraws: seq<Draw>)
    requires |obstacleDraws| == |obstacleTemplates| && |powerUpDraws| == |powerUpTemplates|
    requires Valid(f)
    ensures var t := FrameStep(f, timestamp, now, obstacleDraws, powerUpDraws);
      && Valid(t)
      && t.score >= f.score
      && f.currentPort <= t.currentPort <= f.currentPort + 1
      && t.souvenirs[..|f.souvenirs|] == f.souvenirs
  {
    if f.gameStarted && !f.gameOver {
      var dt := DeltaTime(f.lastTimestamp, timestamp);
      var f1 := MovePhase(f.(lastTimestamp := timestamp), dt);
      var f2 := SpawnPhase(f1, timestamp, obstacleDraws, powerUpDraws);
      SpawnPhaseKeepsValid(f1, timestamp, obstacleDraws, powerUpDraws);
      var f3 := AdvancePhase(f2, dt, now);
      AdvancePhaseKeepsValid(f2, dt, now);
      ObstaclePhaseKeepsValid(f3);
      var f4 := PickupPhase(ObstaclePhase(f3), now);
      PickupPhaseKeepsValid(ObstaclePhase(f3), now);
      PortPhaseKeepsValid(f4);
    }
  }

  /** The points multiplier is positive while every held value is. */
  lemma MultiplierPositive(installed: seq<Installed>)
    requires forall i :: i in installed ==> i.powerUp.value > 0.0
    ensures ValueOrOne(installed, Points) > 0.0
  {
  }

  /** The power-up pass only installs power-ups from the river, so held values stay positive. */
  lemma {:induction false} PickupValues(ps: seq<PowerUp>, installed: seq<Installed>, health: real, ship: Rect, now: int)
    requires forall p :: p in ps ==> p.value > 0.0
    requires forall i :: i in installed ==> i.powerUp.value > 0.0
    ensures var r := Pickups(ps, Pickup([], installed, health), ship, now);
      forall i :: i in r.installed ==> i.powerUp.value > 0.0
  {
    if ps != [] {
      var n := |ps| - 1;
      assert forall p :: p in ps[..n] ==> p in ps;
      PickupValues(ps[..n], installed, health, ship, now);
    }
  }

  // ---------------------------------------------------------------- the phases as loops

  /** A rock drifting into the ship at its starting place, with no bullets in flight and no
      shield held, is removed and takes its 15 points of damage off the ship's health. */
  lemma RamScenario(f: Frame)
    requires f.position == Position(50.0, 500.0) && f.bullets == [] && f.installed == []
    requires f.obstacles == [Obstacle("rock", 15.0, 2.0, 60.0, 510.0)]
    ensures ObstaclePhase(f).obstacles == []
    ensures ObstaclePhase(f).health == f.health - 15.0
    ensures ObstaclePhase(f).score == f.score
  {
    var o := f.obstacles[0];
    var start := Combat([], [], f.score, f.health);
    assert FindEffect([], Invulnerability) == None;
    assert Overlaps(ShipRect(f.position), ObstacleRect(o));
    assert f.obstacles[..0] == [];
    assert ResolveObstacles(f.obstacles, start, ShipRect(f.position), false)
        == ResolveOne(start, o, ShipRect(f.position), false);
  }

  /** The `obstacles.forEach` spawn round. */
  method SpawnObstaclesLoop(draws: seq<Draw>) returns (spawned: seq<Obstacle>)
    requires |draws| == |obstacleTemplates|
    ensures spawned == SpawnObstacles(obstacleTemplates, draws)
  {
    spawned := [];
    var i := 0;
    while i < |obstacleTemplates|
      invariant 0 <= i <= |obstacleTemplates|
      invariant spawned == SpawnObstacles(obstacleTemplates[..i], draws[..i])
    {
      assert obstacleTemplates[..i + 1][..i] == obstacleTemplates[..i];
      assert draws[..i + 1][..i] == draws[..i];
      if draws[i].chance < obstacleTemplates[i].frequency {
        spawned := spawned + [NewObstacle(obstacleTemplates[i], draws[i])];
      }
      i := i + 1;
    }
    assert obstacleTemplates[..i] == obstacleTemplates && draws[..i] == draws;
  }

  /** The `powerUps.forEach` spawn round. */
  method SpawnPowerUpsLoop(draws: seq<Draw>) returns (spawned: seq<PowerUp>)
    requires |draws| == |powerUpTemplates|
    ensures spawned == SpawnPowerUps(powerUpTemplates, draws)
  {
    spawned := [];
    var i := 0;
    while i < |powerUpTemplates|
      invariant 0 <= i <= |powerUpTemplates|
      invariant spawned == SpawnPowerUps(powerUpTemplates[..i], draws[..i])
    {
      assert powerUpTemplates[..i + 1][..i] == powerUpTemplates[..i];
      assert draws[..i + 1][..i] == draws[..i];
      if draws[i].chance < powerUpTemplates[i].frequency {
        spawned := spawned + [NewPowerUp(powerUpTemplates[i], draws[i])];
      }
      i := i + 1;
    }
    assert powerUpTemplates[..i] == powerUpTemplates && draws[..i] == draws;
  }

  /** `updateObstacles`' filter. */
  method AdvanceObstaclesLoop(obs: seq<Obstacle>, dt: real) returns (kept: seq<Obstacle>)
    ensures kept == AdvanceObstacles(obs, dt)
  {
    kept := [];
    var i := 0;
    while i < |obs|
      invariant 0 <= i <= |obs|
      invariant kept == AdvanceObstacles(obs[..i], dt)
    {
      assert obs[..i + 1][..i] == obs[..i];
      var o := MovedObstacle(obs[i], dt);
      if o.y < GameHeight {
        kept := kept + [o];
      }
      i := i + 1;
    }
    assert obs[..i] == obs;
  }

  /** One more power-up: the rule on a longer prefix extends the rule on the shorter one. */
  lemma AdvancePowerUpsStep(ps: seq<PowerUp>, i: nat, dt: real)
    requires i < |ps|
    ensures AdvancePowerUps(ps[..i + 1], dt)
      == if MovedPowerUp(ps[i], dt).y < GameHeight then AdvancePowerUps(ps[..i], dt) + [MovedPowerUp(ps[i], dt)]
         else AdvancePowerUps(ps[..i], dt)
  {
    assert ps[..i + 1][..i] == ps[..i];
  }

  /** `updatePowerUps`' filter over the river. */
  method AdvancePowerUpsLoop(ps: seq<PowerUp>, dt: real) returns (kept: seq<PowerUp>)
    ensures kept == AdvancePowerUps(ps, dt)
  {
    kept := [];
    var i := 0;
    while i < |ps|
      invariant 0 <= i <= |ps|
      invariant kept == AdvancePowerUps(ps[..i], dt)
    {
      AdvancePowerUpsStep(ps, i, dt);
      var p := MovedPowerUp(ps[i], dt);
      if p.y < GameHeight {
        kept := kept + [p];
      }
      i := i + 1;
    }
    assert ps[..i] == ps;
  }

  /** `updatePowerUps`' filter over the held power-ups. */
  method ExpireLoop(installed: seq<Installed>, now: int) returns (kept: seq<Installed>)
    ensures kept == Expire(installed, now)
  {
    kept := [];
    var i := 0;
    while i < |installed|
      invariant 0 <= i <= |installed|
      invariant kept == Expire(installed[..i], now)
    {
      assert installed[..i + 1][..i] == installed[..i];
      var e := installed[i].endTime;
      if e.None? || e.value == 0 || now < e.value {
        kept := kept + [installed[i]];
      }
      i := i + 1;
    }
    assert installed[..i] == installed;
  }

  /** `updateBullets`' filter. */
  method AdvanceBulletsLoop(bs: seq<Bullet>, dt: real) returns (kept: seq<Bullet>)
    ensures kept == AdvanceBullets(bs, dt)
  {
    kept := [];
    var i := 0;
    while i < |bs|
      invariant 0 <= i <= |bs|
      invariant kept == AdvanceBullets(bs[..i], dt)
    {
      assert bs[..i + 1][..i] == bs[..i];
      var b := MovedBullet(bs[i], dt);
      if b.y > 0.0 {
        kept := kept + [b];
      }
      i := i + 1;
    }
    assert bs[..i] == bs;
  }

  /** One more bullet: the rule on a longer prefix extends the rule on the shorter one. */
  lemma SurvivingStep(bs: seq<Bullet>, i: nat, o: Obstacle)
    requires i < |bs|
    ensures Surviving(bs[..i + 1], o)
      == if BulletHits(bs[i], o) then Surviving(bs[..i], o) else Surviving(bs[..i], o) + [bs[i]]
  {
    assert bs[..i + 1][..i] == bs[..i];
  }

  /** The inner bullet filter of `checkCollisions`, with its `bulletHit` flag. */
  method SurvivingLoop(bs: seq<Bullet>, o: Obstacle) returns (left: seq<Bullet>, bulletHit: bool)
    ensures left == Surviving(bs, o)
    ensures bulletHit <==> |left| < |bs|
  {
    left := [];
    bulletHit := false;
    var i := 0;
    while i < |bs|
      invariant 0 <= i <= |bs|
      invariant left == Surviving(bs[..i], o)
      invariant bulletHit <==> |left| < i
    {
      SurvivingStep(bs, i, o);
      var hit := Overlaps(BulletRect(bs[i]), ObstacleRect(o));
      if hit {
        bulletHit := true;
      } else {
        left := left + [bs[i]];
      }
      i := i + 1;
    }
    assert bs[..i] == bs;
  }

  /** The obstacle filter of `checkCollisions`. */
  method ResolveObstaclesLoop(obs: seq<Obstacle>, bullets: seq<Bullet>, score: real, health: real,
                              ship: Rect, invulnerable: bool) returns (c: Combat)
    ensures c == ResolveObstacles(obs, Combat([], bullets, score, health), ship, invulnerable)
  {
    c := Combat([], bullets, score, health);
    var i := 0;
    while i < |obs|
      invariant 0 <= i <= |obs|
      invariant c == ResolveObstacles(obs[..i], Combat([], bullets, score, health), ship, invulnerable)
    {
      assert obs[..i + 1][..i] == obs[..i];
      var o := obs[i];
      var left, bulletHit := SurvivingLoop(c.bullets, o);
      if bulletHit {
        c := c.(bullets := left, score := c.score + 10.0);
      } else if Overlaps(ship, ObstacleRect(o)) {
        if !invulnerable {
          c := c.(health := c.health - o.damage);
        }
      } else {
        c := c.(obstacles := c.obstacles + [o]);
      }
      i := i + 1;
    }
    assert obs[..i] == obs;
  }

  /** The power-up filter of `checkCollisions`. */
  method PickupsLoop(ps: seq<PowerUp>, installed: seq<Installed>, health: real, ship: Rect, now: int)
    returns (k: Pickup)
    ensures k == Pickups(ps, Pickup([], installed, health), ship, now)
  {
    k := Pickup([], installed, health);
    var i := 0;
    while i < |ps|
      invariant 0 <= i <= |ps|
      invariant k == Pickups(ps[..i], Pickup([], installed, health), ship, now)
    {
      assert ps[..i + 1][..i] == ps[..i];
      var p := ps[i];
      if Overlaps(ship, PowerUpRect(p)) {
        if p.effect == Health {
          k := k.(health := Min(PlayerInitialHealth, k.health + p.value));
        } else {
          k := k.(installed := Install(k.installed, p, now));
        }
      } else {
        k := k.(activePowerUps := k.activePowerUps + [p]);
      }
      i := i + 1;
    }
    assert ps[..i] == ps;
  }

  /** The spawn block of `gameLoop`: a round of obstacles, then a round of power-ups, each when
      its clock has run long enough. */
  method RunSpawn(f: Frame, timestamp: real, obstacleDraws: seq<Draw>, powerUpDraws: seq<Draw>)
    returns (t: Frame)
    requires |obstacleDraws| == |obstacleTemplates| && |powerUpDraws| == |powerUpTemplates|
    ensures t == SpawnPhase(f, timestamp, obstacleDraws, powerUpDraws)
  {
    t := f;
    if timestamp - t.lastObstacleTime > 1000.0 {
      var spawned := SpawnObstaclesLoop(obstacleDraws);
      t := t.(obstacles := t.obstacles + spawned, lastObstacleTime := timestamp);
    }
    if timestamp - t.lastPowerUpTime > 2000.0 {
      var spawned := SpawnPowerUpsLoop(powerUpDraws);
      t := t.(activePowerUps := t.activePowerUps + spawned, lastPowerUpTime := timestamp);
    }
  }

  /** The update block of `gameLoop`: everything moves, and held power-ups expire. */
  method RunAdvance(f: Frame, dt: real, now: int) returns (t: Frame)
    ensures t == AdvancePhase(f, dt, now)
  {
    var obstacles := AdvanceObstaclesLoop(f.obstacles, dt);
    var powerUps := AdvancePowerUpsLoop(f.activePowerUps, dt);
    var installed := ExpireLoop(f.installed, now);
    var bullets := AdvanceBulletsLoop(f.bullets, dt);
    t := f.(obstacles := obstacles, activePowerUps := powerUps, installed := installed, bullets := bullets);
  }

  /** `checkCollisions`: obstacles against bullets and the ship, then power-ups against the ship. */
  method RunCollisions(f: Frame, now: int) returns (t: Frame)
    ensures t == PickupPhase(ObstaclePhase(f), now)
  {
    var ship := ShipRect(f.position);
    var invulnerable := FindEffect(f.installed, Invulnerability).Some?;
    var c := ResolveObstaclesLoop(f.obstacles, f.bullets, f.score, f.health, ship, invulnerable);
    var f1 := f.(obstacles := c.obstacles, bullets := c.bullets, score := c.score, health := c.health);
    var k := PickupsLoop(f1.activePowerUps, f1.installed, f1.health, ship, now);
    t := f1.(activePowerUps := k.activePowerUps, installed := k.installed, health := k.health);
  }

  /** `gameLoop`'s body: each block in the loop's order, then the end of the game at zero health. */
  method RunFrame(f: Frame, timestamp: real, now: int, obstacleDraws: seq<Draw>, powerUpDraws: seq<Draw>)
    returns (t: Frame)
    requires |obstacleDraws| == |obstacleTemplates| && |powerUpDraws| == |powerUpTemplates|
    requires 0 <= f.currentPort
    ensures t == FrameStep(f, timestamp, now, obstacleDraws, powerUpDraws)
  {
    if !f.gameStarted || f.gameOver {
      return f;
    }
    var dt := if f.lastTimestamp != 0.0 then (timestamp - f.lastTimestamp) / 16.0 else 1.0;
    t := f.(lastTimestamp := timestamp);
    t := t.(position := MovePlayer(t.position, t.keys, t.installed, dt));
    t := RunSpawn(t, timestamp, obstacleDraws, powerUpDraws);
    t := RunAdvance(t, dt, now);
    t := RunCollisions(t, now);
    var g := ReachPort(Progress(t.currentPort, t.souvenirs, t.score), ShipRect(t.position), t.installed);
    t := t.(currentPort := g.currentPort, souvenirs := g.souvenirs, score := g.score);
    t := t.(gameOver := t.health <= 0.0);
  }

  // ---------------------------------------------------------------- the game object

  /** The game component. Its twelve state cells, two timing refs and the loop's last
      timestamp are held together as one `Frame` that every handler replaces. */
  class CruiseGame {
    var cells: Frame

    function State(): Frame
      reads this
    {
      cells
    }

    /** The state before the first game: the same cells `startGame` sets, not yet started. */
    constructor ()
      ensures Valid(State())
      ensures State() == Frame(false, false, 0.0, Position(50.0, 500.0), PlayerInitialHealth, 0, [], [], [],
                               [], [], map[], 0.0, 0.0, 0.0)
    {
      cells := Frame(false, false, 0.0, Position(50.0, 500.0), PlayerInitialHealth, 0, [], [], [],
                     [], [], map[], 0.0, 0.0, 0.0);
    }

    /** `startGame`: a fresh run. The spawn clocks and the held keys are not reset; the loop's
        frame clock restarts with the loop. */
    method Start()
      modifies this
      ensures Valid(State())
      ensures State() == old(State()).(
        gameStarted := true, gameOver := false, score := 0.0, position := Position(50.0, 500.0),
        health := PlayerInitialHealth, currentPort := 0, souvenirs := [], obstacles := [],
        activePowerUps := [], installed := [], bullets := [], lastTimestamp := 0.0)
    {
      cells := cells.(
        gameStarted := true, gameOver := false, score := 0.0, position := Position(50.0, 500.0),
        health := PlayerInitialHealth, currentPort := 0, souvenirs := [], obstacles := [],
        activePowerUps := [], installed := [], bullets := [], lastTimestamp := 0.0);
    }

    /** The key-down handler: the key is held, and Space fires a bullet from the ship's centre
        while a game runs. */
    method KeyDown(key: string, code: string)
      requires Valid(State())
      modifies this
      ensures Valid(State())
      ensures State() == old(State()).(
        keys := old(State()).keys[key := true],
        bullets := if code == "Space" && old(State()).gameStarted && !old(State()).gameOver
                   then old(State()).bullets + [Bullet(old(State()).position.x + 25.0, old(State()).position.y)]
                   else old(State()).bullets)
    {
      cells := cells.(keys := cells.keys[key := true]);
      if code == "Space" && cells.gameStarted && !cells.gameOver {
        cells := cells.(bullets := cells.bullets + [Bullet(cells.position.x + 25.0, cells.position.y)]);
      }
    }

    /** The key-up handler: the key is released. */
    method KeyUp(key: string)
      requires Valid(State())
      modifies this
      ensures Valid(State())
      ensures State() == old(State()).(keys := old(State()).keys[key := false])
    {
      cells := cells.(keys := cells.keys[key := false]);
    }

    /** One animation frame: the phases run over the current cells and the results are
        written back. */
    method Step(timestamp: real, now: int, obstacleDraws: seq<Draw>, powerUpDraws: seq<Draw>)
      requires Valid(State())
      requires |obstacleDraws| == |obstacleTemplates| && |powerUpDraws| == |powerUpTemplates|
      modifies this
      ensures Valid(State())
      ensures State() == FrameStep(old(State()), timestamp, now, obstacleDraws, powerUpDraws)
    {
      FrameStepKeepsValid(cells, timestamp, now, obstacleDraws, powerUpDraws);
      cells := RunFrame(cells, timestamp, now, obstacleDraws, powerUpDraws);
    }
  }
}
