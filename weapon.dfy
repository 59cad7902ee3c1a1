/** `fire_weapon`: the fire-rate and reload gate, then one bullet per
    pellet of the current weapon, each turned by a uniform random spread. */
module Weapons {
  import opened Geometry
  import opened Settings
  import opened Environment
  import opened Players
  import opened Bullets

  /** Distance in front of the player at which bullets appear. */
  const MUZZLE_OFFSET: real := 25.0

  /** `random.uniform(-s, s)` for the unit draw `u` (Python's `random()`),
      computed as `a + (b - a) * u`. */
  function Spread(s: nat, u: real): (r: real)
    requires 0.0 <= u <= 1.0
    ensures -(s as real) <= r <= s as real
    ensures u == 0.0 ==> r == -(s as real)
    ensures s == 0 ==> r == 0.0
  {
    var width := (s + s) as real;
    ScaleBelow(width, u);
    -(s as real) + width * u
  }

  lemma ScaleBelow(t: real, u: real)
    requires t >= 0.0 && 0.0 <= u <= 1.0
    ensures 0.0 <= t * u <= t
  {
    assert t * u <= t * 1.0;
  }

  /** What one call does to the rounds of the current weapon: a refused call
      keeps them (after refilling a finished reload), an allowed one takes
      exactly one; the other magazines are never touched. */
  lemma FireRoundAccounting(g: Gun, now: int)
    requires MagazinesInRange(g)
    ensures var (ok, g1) := FireGate(g, now);
      var finished := g.reloading && now - g.reloadStart >= Weapon(g.current).reloadTime;
      var before := if finished then Weapon(g.current).magSize else Rounds(g);
      var after := Step(g, TryFire(now));
      HasAllMagazines(after) && after.current == g.current &&
      (ok ==> Rounds(after) == before - 1 && after.lastShotTime == now) &&
      (!ok ==> Rounds(after) == before && after.lastShotTime == g.lastShotTime) &&
      (forall w: WeaponId :: w != g.current ==> after.ammo[w] == g.ammo[w])
  {
    FireGateOpens(g, now);
    var (ok, g1) := FireGate(g, now);
    if ok {
      ConsumeRoundEffect(g1, now);
    }
  }

  /** `fire_weapon(player)`: nothing is fired (and the gate's own state
      changes are all that happens) when `can_shoot` refuses; otherwise one
      round is consumed and exactly `bullets_per_shot` new bullets are made,
      the i-th one turned by `Spread(spread, spreadDraws[i])` from the
      player's aim and placed MUZZLE_OFFSET in front of the player. */
  method FireWeapon(p: Player, now: int, spreadDraws: seq<real>, env: Env)
      returns (bullets: seq<Bullet>)
    requires p.Valid()
    requires |spreadDraws| >= Weapon(p.currentWeapon).bulletsPerShot
    requires forall i :: 0 <= i < |spreadDraws| ==> 0.0 <= spreadDraws[i] < 1.0
    modifies p`ammo, p`reloading, p`reloadStart, p`lastShotTime
    ensures p.Valid()
    ensures var (ok, g1) := FireGate(old(p.GunState()), now);
      if ok then p.GunState() == ConsumeRound(g1, now) &&
                 |bullets| == Weapon(p.currentWeapon).bulletsPerShot
      else p.GunState() == g1 && bullets == []
    ensures forall i :: 0 <= i < |bullets| ==>
      fresh(bullets[i]) &&
      bullets[i].weapon == p.currentWeapon && bullets[i].spawnTime == now &&
      bullets[i].damage == Weapon(p.currentWeapon).damage &&
      bullets[i].speed == Weapon(p.currentWeapon).bulletSpeed &&
      bullets[i].heading == p.angle + Spread(Weapon(p.currentWeapon).spread, spreadDraws[i]) &&
      bullets[i].x == p.x + env.cosSinDeg(bullets[i].heading).0 * MUZZLE_OFFSET &&
      bullets[i].y == p.y - env.cosSinDeg(bullets[i].heading).1 * MUZZLE_OFFSET
    ensures forall i, j :: 0 <= i < j < |bullets| ==> bullets[i] != bullets[j]
    ensures forall i :: 0 <= i < |bullets| ==>
      p.angle - Weapon(p.currentWeapon).spread as real <= bullets[i].heading <=
      p.angle + Weapon(p.currentWeapon).spread as real
  {
    var ok := p.CanShoot(now);
    if !ok {
      return [];
    }
    p.Shoot(now);
    bullets := Pellets(p.x, p.y, p.angle, p.currentWeapon, now, spreadDraws, env);
  }

  /** The bullets of one allowed shot of weapon `w` aimed at `aim` from
      (px, py): one per pellet, the i-th turned by the i-th spread draw. */
  method Pellets(px: real, py: real, aim: real, w: WeaponId, now: int, spreadDraws: seq<real>, env: Env)
      returns (bullets: seq<Bullet>)
    requires |spreadDraws| >= Weapon(w).bulletsPerShot
    requires forall i :: 0 <= i < |spreadDraws| ==> 0.0 <= spreadDraws[i] < 1.0
    ensures |bullets| == Weapon(w).bulletsPerShot
    ensures forall i, j :: 0 <= i < j < |bullets| ==> bullets[i] != bullets[j]
    ensures forall i :: 0 <= i < |bullets| ==>
      fresh(bullets[i]) &&
      bullets[i].weapon == w && bullets[i].spawnTime == now &&
      bullets[i].damage == Weapon(w).damage && bullets[i].speed == Weapon(w).bulletSpeed &&
      bullets[i].heading == aim + Spread(Weapon(w).spread, spreadDraws[i]) &&
      bullets[i].x == px + env.cosSinDeg(bullets[i].heading).0 * MUZZLE_OFFSET &&
      bullets[i].y == py - env.cosSinDeg(bullets[i].heading).1 * MUZZLE_OFFSET
  {
    var def := Weapon(w);
    bullets := [];
    var k := 0;
    while k < def.bulletsPerShot
      invariant 0 <= k <= def.bulletsPerShot && |bullets| == k
      invariant forall i, j :: 0 <= i < j < k ==> bullets[i] != bullets[j]
      invariant forall i :: 0 <= i < k ==>
        fresh(bullets[i]) &&
        bullets[i].weapon == w && bullets[i].spawnTime == now &&
        bullets[i].damage == def.damage && bullets[i].speed == def.bulletSpeed &&
        bullets[i].heading == aim + Spread(def.spread, spreadDraws[i]) &&
        bullets[i].x == px + env.cosSinDeg(bullets[i].heading).0 * MUZZLE_OFFSET &&
        bullets[i].y == py - env.cosSinDeg(bullets[i].heading).1 * MUZZLE_OFFSET
    {
      var angle := aim + Spread(def.spread, spreadDraws[k]);
      var (c, s) := env.cosSinDeg(angle);
      var x0 := px + c * MUZZLE_OFFSET;
      var y0 := py - s * MUZZLE_OFFSET;
      var b := new Bullet(x0, y0, angle, w, now, env);
      bullets := bullets + [b];
      k := k + 1;
    }
  }
}
