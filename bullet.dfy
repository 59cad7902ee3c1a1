/** Bullets: straight-line travel, one velocity step per frame, and removal
    once out of the extended world or older than their lifetime. */
module Bullets {
  import opened Geometry
  import opened Settings
  import opened Environment

  /** Milliseconds a bullet lives. */
  const LIFETIME: int := 2000
  /** How far outside the world a bullet may travel before it is removed. */
  const MARGIN: int := 50

  /** The removal test of `Bullet.update`: strictly outside the world
      extended by MARGIN on every side, or strictly older than LIFETIME. */
  predicate OutOfPlay(x: real, y: real, age: int)
  {
    x < -MARGIN as real || x > (WORLD_WIDTH + MARGIN) as real ||
    y < -MARGIN as real || y > (WORLD_HEIGHT + MARGIN) as real ||
    age > LIFETIME
  }

  /** A bullet survives exactly when it lies in the closed extended world
      and its age is at most LIFETIME; in particular a bullet exactly on the
      boundary, or exactly LIFETIME old, survives. */
  lemma SurvivalRegion(x: real, y: real, age: int)
    ensures !OutOfPlay(x, y, age) <==>
      -50.0 <= x <= 3050.0 && -50.0 <= y <= 3050.0 && age <= 2000
    ensures !OutOfPlay(-50.0, 3050.0, 2000) && OutOfPlay(0.0, 0.0, 2001)
  {
  }

  /** The velocity of a bullet fired along the direction `dir` = (cos, sin)
      at `speed` pixels per frame; screen y grows downwards, hence the sign. */
  function Velocity(dir: (real, real), speed: nat): (real, real)
  {
    (dir.0 * speed as real, -(dir.1 * speed as real))
  }

  /** Where a bullet is: its position and its rect. */
  datatype Flight = Flight(x: real, y: real, rect: Rect)

  /** One frame of travel: the position moves by the velocity and the rect,
      keeping its size, is re-centred on the truncated new position. */
  function Travel(f: Flight, vx: real, vy: real): Flight
  {
    var x, y := f.x + vx, f.y + vy;
    Flight(x, y, CenteredAt(Trunc(x), Trunc(y), f.rect.w, f.rect.h))
  }

  /** Travel adds the velocity to the position, keeps the rect's size and
      puts the rect's centre on the truncated position; no velocity, no
      movement, for a bullet already on the pixel grid. */
  lemma TravelEffect(f: Flight, vx: real, vy: real)
    ensures Travel(f, vx, vy).x == f.x + vx && Travel(f, vx, vy).y == f.y + vy
    ensures Travel(f, vx, vy).rect.w == f.rect.w && Travel(f, vx, vy).rect.h == f.rect.h
    ensures Travel(f, vx, vy).rect.CenterX() == Trunc(f.x + vx)
    ensures Travel(f, vx, vy).rect.CenterY() == Trunc(f.y + vy)
    ensures f.rect == CenteredAt(Trunc(f.x), Trunc(f.y), f.rect.w, f.rect.h) ==>
      Travel(f, 0.0, 0.0) == f
  {
    CenteredAtCentre(Trunc(f.x + vx), Trunc(f.y + vy), f.rect.w, f.rect.h);
  }

  class Bullet {
    var x: real
    var y: real
    var rect: Rect
    const vx: real
    const vy: real
    const speed: nat
    const damage: nat
    const weapon: WeaponId
    const spawnTime: int
    const lifetime: int := LIFETIME
    /** The firing angle, in degrees, that the velocity was derived from. */
    ghost const heading: real

    /** A bullet of weapon `w` at (x0, y0) heading `angleDeg` degrees
        (counter-clockwise, screen y pointing down), fired at `now`. */
    constructor (x0: real, y0: real, angleDeg: real, w: WeaponId, now: int, env: Env)
      ensures x == x0 && y == y0
      ensures rect == CenteredAt(Trunc(x0), Trunc(y0), BULLET_SIZE, BULLET_SIZE)
      ensures (vx, vy) == Velocity(env.cosSinDeg(angleDeg), speed)
      ensures speed == Weapon(w).bulletSpeed && damage == Weapon(w).damage
      ensures weapon == w && spawnTime == now && lifetime == LIFETIME && heading == angleDeg
    {
      var def := Weapon(w);
      var dir := env.cosSinDeg(angleDeg);
      x, y := x0, y0;
      rect := CenteredAt(Trunc(x0), Trunc(y0), BULLET_SIZE, BULLET_SIZE);
      weapon := w;
      speed := def.bulletSpeed;
      damage := def.damage;
      var v := Velocity(dir, def.bulletSpeed);
      vx, vy := v.0, v.1;
      spawnTime := now;
      heading := angleDeg;
    }

    function Course(): Flight
      reads this
    {
      Flight(x, y, rect)
    }

    /** `update`: one frame of `Travel` at the bullet's velocity, and the
        verdict whether the bullet is removed. */
    method Update(now: int) returns (killed: bool)
      modifies this
      ensures Course() == Travel(old(Course()), vx, vy)
      ensures killed == OutOfPlay(x, y, now - spawnTime)
    {
      x := x + vx;
      y := y + vy;
      rect := CenteredAt(Trunc(x), Trunc(y), rect.w, rect.h);
      killed := x < -MARGIN as real || x > (WORLD_WIDTH + MARGIN) as real ||
                y < -MARGIN as real || y > (WORLD_HEIGHT + MARGIN) as real ||
                now - spawnTime > lifetime;
    }
  }
}
