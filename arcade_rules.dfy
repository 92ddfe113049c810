/** The arcade prototype's rules (src/components/RhineCruiseGame.tsx, duplicated in
    src/components/RhineCruiseGame.js, with constants from src/data/gameData.js): collision
    tests, movement, spawning, advance-and-cull, collision resolution, power-ups and ports,
    each as a function of explicit inputs. Positions, speeds and scores are exact reals. */
module ArcadeRules {
  import opened Resources

  const GameWidth: real := 800.0
  const GameHeight: real := 600.0
  const PlayerInitialHealth: real := 100.0
  const PlayerBaseSpeed: real := 3.0
  const BulletSpeed: real := 5.0

  /** An axis-aligned rectangle: top-left corner and size. */
  datatype Rect = Rect(x: real, y: real, width: real, height: real)

  /** `checkRectCollision`: strict overlap on both axes. */
  predicate Overlaps(a: Rect, b: Rect)
  {
    a.x < b.x + b.width && a.x + a.width > b.x && a.y < b.y + b.height && a.y + a.height > b.y
  }

  datatype Position = Position(x: real, y: real)

  datatype Effect = Speed | Invulnerability | Health | Points

  datatype ObstacleTemplate = ObstacleTemplate(kind: string, damage: real, speed: real, frequency: real)

  datatype PowerUpTemplate = PowerUpTemplate(kind: string, effect: Effect, value: real, duration: int, frequency: real)

  datatype Obstacle = Obstacle(kind: string, damage: real, speed: real, x: real, y: real)

  datatype PowerUp = PowerUp(kind: string, effect: Effect, value: real, duration: int, x: real, y: real)

  /** A power-up the player holds, with its expiry time (none for a zero duration). */
  datatype Installed = Installed(powerUp: PowerUp, endTime: Option<int>)

  datatype Bullet = Bullet(x: real, y: real)

  /** A port on the river: map coordinates in percent of the play area and its souvenir. */
  datatype Port = Port(name: string, cx: real, cy: real, souvenirName: string, souvenirPoints: real)

  /** A souvenir collected at a port. */
  datatype Keepsake = Keepsake(name: string, points: real, port: string)

  /** One random draw per template: whether it spawns, and where along the top edge. */
  datatype Draw = Draw(chance: real, offset: real)

  const obstacleTemplates: seq<ObstacleTemplate> := [
    ObstacleTemplate("Rocks", 15.0, 2.0, 0.05),
    ObstacleTemplate("Whirlpool", 25.0, 3.0, 0.03),
    ObstacleTemplate("Logs", 10.0, 2.5, 0.08),
    ObstacleTemplate("Other Boats", 20.0, 4.0, 0.04)
  ]

  const powerUpTemplates: seq<PowerUpTemplate> := [
    PowerUpTemplate("Engine Boost", Speed, 1.5, 5000, 0.02),
    PowerUpTemplate("Shield", Invulnerability, 1.0, 3000, 0.01),
    PowerUpTemplate("Repair Kit", Health, 20.0, 0, 0.015),
    PowerUpTemplate("Double Points", Points, 2.0, 7000, 0.01)
  ]

  const ports: seq<Port> := [
    Port("Basel", 10.0, 90.0, "Swiss Chocolate", 50.0),
    Port("Breisach", 20.0, 80.0, "Black Forest Cuckoo Clock", 75.0),
    Port("Strasbourg", 30.0, 70.0, "Alsatian Pottery", 100.0),
    Port("Speyer", 40.0, 60.0, "Speyer Cathedral Model", 75.0),
    Port("Rüdesheim", 50.0, 50.0, "Rüdesheimer Coffee Set", 125.0),
    Port("Braubach", 60.0, 40.0, "Marksburg Castle Miniature", 100.0),
    Port("Koblenz", 70.0, 30.0, "German Corner Medallion", 150.0),
    Port("Cologne", 80.0, 20.0, "Cologne Cathedral Crystal", 175.0),
    Port("Amsterdam", 90.0, 10.0, "Dutch Windmill Figurine", 200.0)
  ]

  function ShipRect(p: Position): Rect { Rect(p.x, p.y, 50.0, 50.0) }
  function ObstacleRect(o: Obstacle): Rect { Rect(o.x, o.y, 30.0, 30.0) }
  function PowerUpRect(p: PowerUp): Rect { Rect(p.x, p.y, 30.0, 30.0) }
  function BulletRect(b: Bullet): Rect { Rect(b.x, b.y, 5.0, 10.0) }

  /** The 50-by-50 target around a port's centre on the 800-by-600 area. */
  function PortRect(p: Port): Rect
  {
    Rect(p.cx * (GameWidth / 100.0) - 25.0, p.cy * (GameHeight / 100.0) - 25.0, 50.0, 50.0)
  }

  /** The collision test does not depend on the order of its arguments. */
  lemma OverlapsSymmetric(a: Rect, b: Rect)
    ensures Overlaps(a, b) <==> Overlaps(b, a)
  {
  }

  /** Rectangles that only share an edge, or lie apart on one axis, do not collide. */
  lemma TouchingIsNotColliding(a: Rect, b: Rect)
    ensures a.x + a.width == b.x ==> !Overlaps(a, b)
    ensures a.y + a.height == b.y ==> !Overlaps(a, b)
    ensures b.x + b.width <= a.x ==> !Overlaps(a, b)
    ensures b.y + b.height <= a.y ==> !Overlaps(a, b)
  {
  }

  /** A rectangle of positive size collides with itself. */
  lemma SelfOverlap(a: Rect)
    requires a.width > 0.0 && a.height > 0.0
    ensures Overlaps(a, a)
  {
  }

  // ---------------------------------------------------------------- movement

  function Min(a: real, b: real): real { if a < b then a else b }
  function Max(a: real, b: real): real { if a < b then b else a }

  /** `Math.max(0, Math.min(hi, v))`. */
  function Clamp(v: real, hi: real): (r: real)
    requires hi >= 0.0
    ensures 0.0 <= r <= hi
    ensures 0.0 <= v <= hi ==> r == v
    ensures v < 0.0 ==> r == 0.0
    ensures v > hi ==> r == hi
  {
    Max(0.0, Min(hi, v))
  }

  /** A key counts as held when it was last pressed and not released since. */
  predicate Held(keys: map<string, bool>, k: string)
  {
    k in keys && keys[k]
  }

  /** `find(pu => pu.effect === e)`: the first held power-up with that effect. */
  function FindEffect(installed: seq<Installed>, e: Effect): (r: Option<Installed>)
    ensures r.Some? ==> r.value in installed && r.value.powerUp.effect == e
    ensures r.None? <==> forall i :: 0 <= i < |installed| ==> installed[i].powerUp.effect != e
  {
    if installed == [] then None
    else if installed[0].powerUp.effect == e then Some(installed[0])
    else
      var r := FindEffect(installed[1..], e);
      assert forall i :: 1 <= i < |installed| ==> installed[i] == installed[1..][i - 1];
      r
  }

  /** `find(...)?.value || 1`: the held power-up's value, with 1 when none is held or its value
      is 0. */
  function ValueOrOne(installed: seq<Installed>, e: Effect): (r: real)
    ensures r != 0.0
    ensures FindEffect(installed, e).None? ==> r == 1.0
  {
    var found := FindEffect(installed, e);
    if found.Some? && found.value.powerUp.value != 0.0 then found.value.powerUp.value else 1.0
  }

  /** `updatePlayerPosition`: each held direction moves by base speed times boost times the
      elapsed frames, then the ship is clamped to the play area. */
  function MovePlayer(p: Position, keys: map<string, bool>, installed: seq<Installed>, dt: real): (r: Position)
    ensures 0.0 <= r.x <= GameWidth - 50.0 && 0.0 <= r.y <= GameHeight - 50.0
  {
    var speed := PlayerBaseSpeed * ValueOrOne(installed, Speed) * dt;
    var x1 := if Held(keys, "ArrowLeft") || Held(keys, "a") then p.x - speed else p.x;
    var x2 := if Held(keys, "ArrowRight") || Held(keys, "d") then x1 + speed else x1;
    var y1 := if Held(keys, "ArrowUp") || Held(keys, "w") then p.y - speed else p.y;
    var y2 := if Held(keys, "ArrowDown") || Held(keys, "s") then y1 + speed else y1;
    Position(Clamp(x2, GameWidth - 50.0), Clamp(y2, GameHeight - 50.0))
  }

  /** The speed at which a held key moves the ship. */
  function ShipSpeed(installed: seq<Installed>, dt: real): real
  {
    PlayerBaseSpeed * ValueOrOne(installed, Speed) * dt
  }

  /** Opposite keys cancel, a single held key moves by exactly the speed when the target stays
      inside the area, and without keys an in-bounds ship stays put. */
  lemma MovementRules(p: Position, keys: map<string, bool>, installed: seq<Installed>, dt: real)
    ensures var left := Held(keys, "ArrowLeft") || Held(keys, "a");
            var right := Held(keys, "ArrowRight") || Held(keys, "d");
            var r := MovePlayer(p, keys, installed, dt);
      && (left == right ==> r.x == Clamp(p.x, GameWidth - 50.0))
      && ((right && !left && 0.0 <= p.x + ShipSpeed(installed, dt) <= GameWidth - 50.0)
            ==> r.x == p.x + ShipSpeed(installed, dt))
      && ((left && !right && 0.0 <= p.x - ShipSpeed(installed, dt) <= GameWidth - 50.0)
            ==> r.x == p.x - ShipSpeed(installed, dt))
    ensures var up := Held(keys, "ArrowUp") || Held(keys, "w");
            var down := Held(keys, "ArrowDown") || Held(keys, "s");
            var r := MovePlayer(p, keys, installed, dt);
      && (up == down ==> r.y == Clamp(p.y, GameHeight - 50.0))
      && ((down && !up && 0.0 <= p.y + ShipSpeed(installed, dt) <= GameHeight - 50.0)
            ==> r.y == p.y + ShipSpeed(installed, dt))
      && ((up && !down && 0.0 <= p.y - ShipSpeed(installed, dt) <= GameHeight - 50.0)
            ==> r.y == p.y - ShipSpeed(installed, dt))
  {
  }

  // ---------------------------------------------------------------- spawning

  function NewObstacle(t: ObstacleTemplate, d: Draw): Obstacle
  {
    Obstacle(t.kind, t.damage, t.speed, d.offset * (GameWidth - 30.0), -30.0)
  }

  function NewPowerUp(t: PowerUpTemplate, d: Draw): PowerUp
  {
    PowerUp(t.kind, t.effect, t.value, t.duration, d.offset * (GameWidth - 30.0), -30.0)
  }

  /** A draw as `Math.random` gives it: both numbers in [0, 1). */
  predicate ValidDraw(d: Draw)
  {
    0.0 <= d.chance < 1.0 && 0.0 <= d.offset < 1.0
  }

  /** The obstacles one spawn round adds: each template, in order, whose draw is below its
      frequency. */
  function SpawnObstacles(ts: seq<ObstacleTemplate>, ds: seq<Draw>): (r: seq<Obstacle>)
    requires |ds| == |ts|
    ensures |r| <= |ts|
    ensures forall o :: o in r ==> o.y == -30.0
    ensures forall o :: o in r ==> exists i :: 0 <= i < |ts| && ds[i].chance < ts[i].frequency && o == NewObstacle(ts[i], ds[i])
    ensures forall i :: 0 <= i < |ts| && ds[i].chance < ts[i].frequency ==> NewObstacle(ts[i], ds[i]) in r
  {
    if ts == [] then []
    else
      var n := |ts| - 1;
      var rest := SpawnObstacles(ts[..n], ds[..n]);
      if ds[n].chance < ts[n].frequency then rest + [NewObstacle(ts[n], ds[n])] else rest
  }

  /** The power-ups one spawn round adds, built the same way. */
  function SpawnPowerUps(ts: seq<PowerUpTemplate>, ds: seq<Draw>): (r: seq<PowerUp>)
    requires |ds| == |ts|
    ensures |r| <= |ts|
    ensures forall p :: p in r ==> p.y == -30.0
    ensures forall p :: p in r ==> exists i :: 0 <= i < |ts| && ds[i].chance < ts[i].frequency && p == NewPowerUp(ts[i], ds[i])
    ensures forall i :: 0 <= i < |ts| && ds[i].chance < ts[i].frequency ==> NewPowerUp(ts[i], ds[i]) in r
  {
    if ts == [] then []
    else
      var n := |ts| - 1;
      var rest := SpawnPowerUps(ts[..n], ds[..n]);
      if ds[n].chance < ts[n].frequency then rest + [NewPowerUp(ts[n], ds[n])] else rest
  }

  /** Spawned entities start just above the area, horizontally inside it. */
  lemma SpawnPlacement(d: Draw, t: ObstacleTemplate, u: PowerUpTemplate)
    requires ValidDraw(d)
    ensures 0.0 <= NewObstacle(t, d).x < GameWidth - 30.0 && NewObstacle(t, d).y == -30.0
    ensures 0.0 <= NewPowerUp(u, d).x < GameWidth - 30.0 && NewPowerUp(u, d).y == -30.0
  {
  }

  // ---------------------------------------------------------------- advance and cull

  function MovedObstacle(o: Obstacle, dt: real): Obstacle { o.(y := o.y + o.speed * dt) }
  function MovedPowerUp(p: PowerUp, dt: real): PowerUp { p.(y := p.y + 2.0 * dt) }
  function MovedBullet(b: Bullet, dt: real): Bullet { b.(y := b.y - BulletSpeed * dt) }

  /** `updateObstacles`: every obstacle falls by its speed; those past the bottom edge go. */
  function AdvanceObstacles(obs: seq<Obstacle>, dt: real): (r: seq<Obstacle>)
    ensures |r| <= |obs|
    ensures forall o :: o in r ==> o.y < GameHeight
    ensures forall o :: o in r ==> exists i :: 0 <= i < |obs| && o == MovedObstacle(obs[i], dt)
    ensures forall i :: 0 <= i < |obs| && MovedObstacle(obs[i], dt).y < GameHeight ==> MovedObstacle(obs[i], dt) in r
  {
    if obs == [] then []
    else
      var n := |obs| - 1;
      var rest := AdvanceObstacles(obs[..n], dt);
      var o := MovedObstacle(obs[n], dt);
      if o.y < GameHeight then rest + [o] else rest
  }

  /** `updatePowerUps`, first half: every power-up falls by 2 per frame; those past the bottom go. */
  function AdvancePowerUps(ps: seq<PowerUp>, dt: real): (r: seq<PowerUp>)
    ensures |r| <= |ps|
    ensures forall p :: p in r ==> p.y < GameHeight
    ensures forall p :: p in r ==> exists i :: 0 <= i < |ps| && p == MovedPowerUp(ps[i], dt)
    ensures forall i :: 0 <= i < |ps| && MovedPowerUp(ps[i], dt).y < GameHeight ==> MovedPowerUp(ps[i], dt) in r
  {
    if ps == [] then []
    else
      var n := |ps| - 1;
      var rest := AdvancePowerUps(ps[..n], dt);
      var p := MovedPowerUp(ps[n], dt);
      if p.y < GameHeight then rest + [p] else rest
  }

  /** `updateBullets`: every bullet rises by the bullet speed; those past the top edge go. */
  function AdvanceBullets(bs: seq<Bullet>, dt: real): (r: seq<Bullet>)
    ensures |r| <= |bs|
    ensures forall b :: b in r ==> b.y > 0.0
    ensures forall b :: b in r ==> exists i :: 0 <= i < |bs| && b == MovedBullet(bs[i], dt)
    ensures forall i :: 0 <= i < |bs| && MovedBullet(bs[i], dt).y > 0.0 ==> MovedBullet(bs[i], dt) in r
  {
    if bs == [] then []
    else
      var n := |bs| - 1;
      var rest := AdvanceBullets(bs[..n], dt);
      var b := MovedBullet(bs[n], dt);
      if b.y > 0.0 then rest + [b] else rest
  }

  /** `!endTime || now < endTime`: a held power-up lasts while it has no end time (or an end
      time of 0) or the end time lies ahead. */
  predicate Live(i: Installed, now: int)
  {
    i.endTime.None? || i.endTime.value == 0 || now < i.endTime.value
  }

  /** `updatePowerUps`, second half: expired power-ups are dropped, the rest keep their order. */
  function Expire(installed: seq<Installed>, now: int): (r: seq<Installed>)
    ensures |r| <= |installed|
    ensures forall i :: i in r <==> i in installed && Live(i, now)
  {
    if installed == [] then []
    else
      var n := |installed| - 1;
      var rest := Expire(installed[..n], now);
      assert installed == installed[..n] + [installed[n]];
      if Live(installed[n], now) then rest + [installed[n]] else rest
  }

  // ---------------------------------------------------------------- obstacle collisions

  predicate BulletHits(b: Bullet, o: Obstacle)
  {
    Overlaps(BulletRect(b), ObstacleRect(o))
  }

  /** The bullets that do not hit an obstacle. */
  function Surviving(bs: seq<Bullet>, o: Obstacle): (r: seq<Bullet>)
    ensures |r| <= |bs|
    ensures forall b :: b in r <==> b in bs && !BulletHits(b, o)
    ensures |r| == |bs| <==> forall k :: 0 <= k < |bs| ==> !BulletHits(bs[k], o)
  {
    if bs == [] then []
    else
      var n := |bs| - 1;
      var rest := Surviving(bs[..n], o);
      assert bs == bs[..n] + [bs[n]];
      if BulletHits(bs[n], o) then rest else rest + [bs[n]]
  }

  /** What the obstacle pass has produced so far. */
  datatype Combat = Combat(obstacles: seq<Obstacle>, bullets: seq<Bullet>, score: real, health: real)

  /** One obstacle of `checkCollisions`: bullets that hit it go and it is destroyed for 10
      points; otherwise if it hits the ship it goes and deals its damage unless the ship is
      invulnerable; otherwise it stays. */
  function ResolveOne(c: Combat, o: Obstacle, ship: Rect, invulnerable: bool): Combat
  {
    var left := Surviving(c.bullets, o);
    if |left| < |c.bullets| then c.(bullets := left, score := c.score + 10.0)
    else if Overlaps(ship, ObstacleRect(o)) then
      c.(health := if invulnerable then c.health else c.health - o.damage)
    else c.(obstacles := c.obstacles + [o])
  }

  /** The whole obstacle pass, obstacles in order. */
  function ResolveObstacles(obs: seq<Obstacle>, start: Combat, ship: Rect, invulnerable: bool): Combat
  {
    if obs == [] then start
    else ResolveOne(ResolveObstacles(obs[..|obs| - 1], start, ship, invulnerable), obs[|obs| - 1], ship, invulnerable)
  }

  /** Bullet hits take precedence: an obstacle hit by a bullet is destroyed for 10 points and
      never damages the ship; an obstacle that only hits the ship is removed with damage unless
      invulnerable; only an obstacle hitting nothing stays. */
  lemma BulletsTakePrecedence(c: Combat, o: Obstacle, ship: Rect, invulnerable: bool)
    ensures var r := ResolveOne(c, o, ship, invulnerable);
      (exists k :: 0 <= k < |c.bullets| && BulletHits(c.bullets[k], o)) ==>
        && r.obstacles == c.obstacles && r.health == c.health && r.score == c.score + 10.0
        && r.bullets == Surviving(c.bullets, o) && |r.bullets| < |c.bullets|
    ensures var r := ResolveOne(c, o, ship, invulnerable);
      (forall k :: 0 <= k < |c.bullets| ==> !BulletHits(c.bullets[k], o)) && Overlaps(ship, ObstacleRect(o)) ==>
        && r.obstacles == c.obstacles && r.bullets == c.bullets && r.score == c.score
        && r.health == (if invulnerable then c.health else c.health - o.damage)
    ensures var r := ResolveOne(c, o, ship, invulnerable);
      (forall k :: 0 <= k < |c.bullets| ==> !BulletHits(c.bullets[k], o)) && !Overlaps(ship, ObstacleRect(o)) ==>
        r == c.(obstacles := c.obstacles + [o])
  {
    var left := Surviving(c.bullets, o);
    if forall k :: 0 <= k < |c.bullets| ==> !BulletHits(c.bullets[k], o) {
      SurvivingAll(c.bullets, o);
    }
  }

  /** When no bullet hits, the filter keeps the list as it is. */
  lemma {:induction false} SurvivingAll(bs: seq<Bullet>, o: Obstacle)
    requires forall k :: 0 <= k < |bs| ==> !BulletHits(bs[k], o)
    ensures Surviving(bs, o) == bs
  {
    if bs != [] {
      SurvivingAll(bs[..|bs| - 1], o);
      assert bs == bs[..|bs| - 1] + [bs[|bs| - 1]];
    }
  }

  /** Nothing left after the pass touches anything: no remaining bullet overlaps a remaining
      obstacle, no remaining obstacle overlaps the ship, the bullet list only shrinks, and
      neither score nor health moves the wrong way. */
  predicate Cleared(c: Combat, ship: Rect)
  {
    && (forall i, k :: 0 <= i < |c.obstacles| && 0 <= k < |c.bullets| ==> !BulletHits(c.bullets[k], c.obstacles[i]))
    && (forall i :: 0 <= i < |c.obstacles| ==> !Overlaps(ship, ObstacleRect(c.obstacles[i])))
  }

  /** One obstacle step keeps the pass cleared and only removes bullets. */
  lemma ResolveOneKeepsCleared(c: Combat, o: Obstacle, ship: Rect, invulnerable: bool)
    requires Cleared(c, ship)
    requires o.damage >= 0.0
    ensures var r := ResolveOne(c, o, ship, invulnerable);
      && Cleared(r, ship)
      && (forall b :: b in r.bullets ==> b in c.bullets)
      && (forall x :: x in r.obstacles ==> x in c.obstacles || x == o)
      && |r.obstacles| <= |c.obstacles| + 1 && |r.bullets| <= |c.bullets|
      && r.score >= c.score && r.health <= c.health
      && (invulnerable ==> r.health == c.health)
  {
    var left := Surviving(c.bullets, o);
    if |left| == |c.bullets| {
      SurvivingAll(c.bullets, o);
      var r := ResolveOne(c, o, ship, invulnerable);
      if !Overlaps(ship, ObstacleRect(o)) {
        assert r.obstacles == c.obstacles + [o];
        forall i, k | 0 <= i < |r.obstacles| && 0 <= k < |r.bullets|
          ensures !BulletHits(r.bullets[k], r.obstacles[i])
        {
          if i == |c.obstacles| {
            assert r.obstacles[i] == o;
          }
        }
      }
    } else {
      var r := ResolveOne(c, o, ship, invulnerable);
      forall i, k | 0 <= i < |r.obstacles| && 0 <= k < |r.bullets|
        ensures !BulletHits(r.bullets[k], r.obstacles[i])
      {
        assert r.bullets[k] in c.bullets;
        var k' :| 0 <= k' < |c.bullets| && c.bullets[k'] == r.bullets[k];
      }
    }
  }

  /** After the whole pass no remaining bullet overlaps a remaining obstacle and no remaining
      obstacle overlaps the ship; bullets and obstacles only go, the score only rises and
      health only falls, not at all while invulnerable. */
  lemma {:induction false} ResolutionClears(obs: seq<Obstacle>, bs: seq<Bullet>, score: real, health: real, ship: Rect, invulnerable: bool)
    requires forall k :: 0 <= k < |obs| ==> obs[k].damage >= 0.0
    ensures var r := ResolveObstacles(obs, Combat([], bs, score, health), ship, invulnerable);
      && Cleared(r, ship)
      && |r.obstacles| <= |obs| && |r.bullets| <= |bs|
      && (forall b :: b in r.bullets ==> b in bs)
      && (forall o :: o in r.obstacles ==> o in obs)
      && r.score >= score && r.health <= health
      && (invulnerable ==> r.health == health)
  {
    if obs != [] {
      var n := |obs| - 1;
      ResolutionClears(obs[..n], bs, score, health, ship, invulnerable);
      var c := ResolveObstacles(obs[..n], Combat([], bs, score, health), ship, invulnerable);
      ResolveOneKeepsCleared(c, obs[n], ship, invulnerable);
      assert forall x :: x in obs[..n] ==> x in obs;
    }
  }

  // ---------------------------------------------------------------- power-up pickups

  /** The held power-ups without the given effect, in order. */
  function WithoutEffect(installed: seq<Installed>, e: Effect): (r: seq<Installed>)
    ensures |r| <= |installed|
    ensures forall i :: i in r <==> i in installed && i.powerUp.effect != e
  {
    if installed == [] then []
    else
      var n := |installed| - 1;
      var rest := WithoutEffect(installed[..n], e);
      assert installed == installed[..n] + [installed[n]];
      if installed[n].powerUp.effect != e then rest + [installed[n]] else rest
  }

  /** A picked-up non-health power-up replaces any held one with the same effect; it ends
      `duration` after now, or never when its duration is 0. */
  function Install(installed: seq<Installed>, p: PowerUp, now: int): seq<Installed>
  {
    WithoutEffect(installed, p.effect) + [Installed(p, if p.duration != 0 then Some(now + p.duration) else None)]
  }

  /** At most one held power-up per effect. */
  predicate OnePerEffect(installed: seq<Installed>)
  {
    forall i, j :: 0 <= i < j < |installed| ==> installed[i].powerUp.effect != installed[j].powerUp.effect
  }

  /** What the power-up pass has produced so far. */
  datatype Pickup = Pickup(activePowerUps: seq<PowerUp>, installed: seq<Installed>, health: real)

  /** One power-up of `checkCollisions`: when the ship touches it, a repair kit heals up to the
      initial health and any other effect is installed; either way it leaves the river. */
  function PickOne(k: Pickup, p: PowerUp, ship: Rect, now: int): Pickup
  {
    if Overlaps(ship, PowerUpRect(p)) then
      if p.effect == Health then k.(health := Min(PlayerInitialHealth, k.health + p.value))
      else k.(installed := Install(k.installed, p, now))
    else k.(activePowerUps := k.activePowerUps + [p])
  }

  /** The whole power-up pass, power-ups in order. */
  function Pickups(ps: seq<PowerUp>, start: Pickup, ship: Rect, now: int): Pickup
  {
    if ps == [] then start
    else PickOne(Pickups(ps[..|ps| - 1], start, ship, now), ps[|ps| - 1], ship, now)
  }

  /** Installing keeps one power-up per effect, and the new one is held. */
  lemma InstallKeepsOnePerEffect(installed: seq<Installed>, p: PowerUp, now: int)
    requires OnePerEffect(installed)
    ensures OnePerEffect(Install(installed, p, now))
    ensures Install(installed, p, now)[|Install(installed, p, now)| - 1].powerUp == p
    ensures forall i :: i in Install(installed, p, now) && i.powerUp.effect != p.effect ==> i in installed
  {
    var w := WithoutEffect(installed, p.effect);
    var r := Install(installed, p, now);
    forall i, j | 0 <= i < j < |r|
      ensures r[i].powerUp.effect != r[j].powerUp.effect
    {
      if j == |r| - 1 {
        assert r[i] in w;
      } else {
        assert r[i] in installed && r[j] in installed;
        WithoutEffectOrder(installed, p.effect, i, j);
      }
    }
  }

  /** Filtering keeps the relative order of what it keeps, so distinct effects stay distinct. */
  lemma {:induction false} WithoutEffectOrder(installed: seq<Installed>, e: Effect, i: int, j: int)
    requires OnePerEffect(installed)
    requires 0 <= i < j < |WithoutEffect(installed, e)|
    ensures WithoutEffect(installed, e)[i].powerUp.effect != WithoutEffect(installed, e)[j].powerUp.effect
  {
    var n := |installed| - 1;
    var rest := WithoutEffect(installed[..n], e);
    var w := WithoutEffect(installed, e);
    if installed[n].powerUp.effect == e {
      assert w == rest;
      assert OnePerEffect(installed[..n]);
      WithoutEffectOrder(installed[..n], e, i, j);
    } else {
      assert w == rest + [installed[n]];
      if j == |rest| {
        // the last one kept is the last entry, and every earlier one kept comes before it
        assert rest[i] in installed[..n];
        var k :| 0 <= k < n && installed[..n][k] == rest[i];
        assert installed[k].powerUp.effect != installed[n].powerUp.effect;
      } else {
        assert w[i] == rest[i] && w[j] == rest[j];
        assert OnePerEffect(installed[..n]);
        WithoutEffectOrder(installed[..n], e, i, j);
      }
    }
  }

  /** The power-up pass keeps health at or below the initial health, never installs a repair
      kit, keeps one power-up per effect, and what stays in the river does not touch the ship. */
  lemma {:induction false} PickupsKeepInvariants(ps: seq<PowerUp>, installed: seq<Installed>, health: real, ship: Rect, now: int)
    requires health <= PlayerInitialHealth
    requires OnePerEffect(installed)
    requires forall i :: i in installed ==> i.powerUp.effect != Health
    ensures var r := Pickups(ps, Pickup([], installed, health), ship, now);
      && r.health <= PlayerInitialHealth
      && OnePerEffect(r.installed)
      && (forall i :: i in r.installed ==> i.powerUp.effect != Health)
      && (forall q :: q in r.activePowerUps ==> q in ps && !Overlaps(ship, PowerUpRect(q)))
      && |r.activePowerUps| <= |ps|
  {
    if ps != [] {
      var n := |ps| - 1;
      PickupsKeepInvariants(ps[..n], installed, health, ship, now);
      var k := Pickups(ps[..n], Pickup([], installed, health), ship, now);
      var p := ps[n];
      if Overlaps(ship, PowerUpRect(p)) && p.effect != Health {
        InstallKeepsOnePerEffect(k.installed, p, now);
      }
      assert forall q :: q in ps[..n] ==> q in ps;
    }
  }

  // ---------------------------------------------------------------- ports

  /** Port progress: the last port reached, the souvenirs and the score. */
  datatype Progress = Progress(currentPort: int, souvenirs: seq<Keepsake>, score: real)

  /** `checkPortReached`: when the ship overlaps the next port, its souvenir is collected, the
      port counter advances and the souvenir's points, times any points multiplier, are added,
      plus 1000 on arriving at the last port. Nothing happens at the last port. */
  function ReachPort(g: Progress, ship: Rect, installed: seq<Installed>): Progress
    requires 0 <= g.currentPort
  {
    if g.currentPort >= |ports| - 1 then g
    else
      var next := ports[g.currentPort + 1];
      if Overlaps(ship, PortRect(next)) then
        Progress(g.currentPort + 1,
                 g.souvenirs + [Keepsake(next.souvenirName, next.souvenirPoints, next.name)],
                 g.score + next.souvenirPoints * ValueOrOne(installed, Points)
                   + (if g.currentPort + 1 >= |ports| - 1 then 1000.0 else 0.0))
      else g
  }

  /** The port counter stays at or below the last port and moves at most one step; each step
      collects exactly one souvenir; the 1000 bonus is paid exactly on the step onto the last
      port; at the last port nothing changes. */
  lemma PortProgress(g: Progress, ship: Rect, installed: seq<Installed>)
    requires 0 <= g.currentPort < |ports|
    ensures var r := ReachPort(g, ship, installed);
      && g.currentPort <= r.currentPort <= g.currentPort + 1
      && r.currentPort < |ports|
      && (r.currentPort == g.currentPort ==> r == g)
      && (r.currentPort == g.currentPort + 1 ==>
            |r.souvenirs| == |g.souvenirs| + 1
            && r.souvenirs[..|g.souvenirs|] == g.souvenirs
            && r.souvenirs[|g.souvenirs|].port == ports[r.currentPort].name
            && r.score == g.score + ports[r.currentPort].souvenirPoints * ValueOrOne(installed, Points)
                            + (if r.currentPort == |ports| - 1 then 1000.0 else 0.0))
      && (g.currentPort == |ports| - 1 ==> r == g)
  {
  }

  /** Every port's souvenir is worth a positive number of points. */
  lemma PortFacts()
    ensures |ports| == 9
    ensures forall i :: 0 <= i < |ports| ==> ports[i].souvenirPoints > 0.0
    ensures ports[0].name == "Basel" && ports[8].name == "Amsterdam"
  {
  }

  /** The templates' damages, speeds, values and frequencies are positive. */
  lemma TemplateFacts()
    ensures forall i :: 0 <= i < |obstacleTemplates| ==> obstacleTemplates[i].damage > 0.0 && obstacleTemplates[i].speed > 0.0
    ensures forall i :: 0 <= i < |powerUpTemplates| ==> powerUpTemplates[i].value > 0.0
    ensures powerUpTemplates[2].effect == Health && powerUpTemplates[2].duration == 0
  {
  }
}
