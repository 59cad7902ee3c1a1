/** The player: position and movement clamp, health, and the weapon state
    machine (magazines, fire-rate gate, reload timer). */
module Players {
  import opened Geometry
  import opened Settings
  import opened Environment

  /** The part of the player that the firing gate reads and writes. */
  datatype Gun = Gun(
    current: WeaponId,
    ammo: map<WeaponId, int>,
    reloading: bool,
    reloadStart: int,
    lastShotTime: int)

  predicate HasAllMagazines(g: Gun)
  {
    forall w: WeaponId :: w in g.ammo
  }

  /** Every magazine holds between 0 and its weapon's `mag_size` rounds. */
  predicate MagazinesInRange(g: Gun)
  {
    forall w: WeaponId :: w in g.ammo && 0 <= g.ammo[w] <= Weapon(w).magSize
  }

  /** The rounds left in the current weapon's magazine. */
  function Rounds(g: Gun): int
    requires HasAllMagazines(g)
  {
    g.ammo[g.current]
  }

  /** The gun of a new player: pistol selected, every magazine full, no
      reload in progress, and both timestamps 0. */
  function NewGun(): (g: Gun)
    ensures MagazinesInRange(g) && !g.reloading && g.current == Pistol
    ensures forall w: WeaponId :: w in g.ammo && g.ammo[w] == Weapon(w).magSize
  {
    var full := map[Pistol := Weapon(Pistol).magSize, Shotgun := Weapon(Shotgun).magSize,
                    Rifle := Weapon(Rifle).magSize];
    EveryWeaponListed(full);
    Gun(Pistol, full, false, 0, 0)
  }

  lemma EveryWeaponListed<V>(m: map<WeaponId, V>)
    requires Pistol in m && Shotgun in m && Rifle in m
    ensures forall w: WeaponId :: w in m
  {
    forall w: WeaponId ensures w in m {
      match w
      case Pistol =>
      case Shotgun =>
      case Rifle =>
    }
  }

  /** `switch_weapon`: a different weapon becomes current and cancels any
      reload; the magazines and the timestamps are kept. */
  function SwitchTo(g: Gun, w: WeaponId): Gun
  {
    if w != g.current then g.(current := w, reloading := false) else g
  }

  /** `start_reload`: only when not already reloading and the current
      magazine is below its size. */
  function BeginReload(g: Gun, now: int): Gun
    requires HasAllMagazines(g)
  {
    if !g.reloading && Rounds(g) < Weapon(g.current).magSize then
      g.(reloading := true, reloadStart := now)
    else
      g
  }

  /** `can_shoot`: the verdict and the gun state it leaves behind (it may
      finish a reload, or start one on an empty magazine). */
  function FireGate(g: Gun, now: int): (bool, Gun)
    requires HasAllMagazines(g)
  {
    var def := Weapon(g.current);
    if g.reloading && now - g.reloadStart < def.reloadTime then
      (false, g)
    else
      var g1 := if g.reloading then g.(ammo := g.ammo[g.current := def.magSize], reloading := false) else g;
      if Rounds(g1) <= 0 then
        (false, BeginReload(g1, now))
      else if now - g1.lastShotTime < def.fireRate then
        (false, g1)
      else
        (true, g1)
  }

  /** `shoot`: consumes one round of the current weapon and stamps the shot. */
  function ConsumeRound(g: Gun, now: int): Gun
    requires HasAllMagazines(g)
  {
    g.(ammo := g.ammo[g.current := Rounds(g) - 1], lastShotTime := now)
  }

  lemma SwitchToEffect(g: Gun, w: WeaponId)
    ensures w != g.current ==> SwitchTo(g, w) == g.(current := w, reloading := false)
    ensures w == g.current ==> SwitchTo(g, w) == g
    ensures SwitchTo(g, w).current == w && SwitchTo(g, w).ammo == g.ammo
  {
  }

  lemma BeginReloadEffect(g: Gun, now: int)
    requires HasAllMagazines(g)
    ensures !g.reloading && Rounds(g) < Weapon(g.current).magSize ==>
              BeginReload(g, now) == g.(reloading := true, reloadStart := now)
    ensures g.reloading || Rounds(g) >= Weapon(g.current).magSize ==> BeginReload(g, now) == g
  {
  }

  /** While the reload time has not elapsed, `can_shoot` refuses and changes
      nothing. */
  lemma FireGateWhileReloading(g: Gun, now: int)
    requires HasAllMagazines(g)
    requires g.reloading && now - g.reloadStart < Weapon(g.current).reloadTime
    ensures FireGate(g, now) == (false, g)
  {
  }

  /** Once the reload time has elapsed the current magazine is refilled and
      the reload cleared before the other checks; the refilled magazine is
      never empty, so the verdict is then the fire-rate check alone. */
  lemma FireGateFinishesReload(g: Gun, now: int)
    requires HasAllMagazines(g)
    requires g.reloading && now - g.reloadStart >= Weapon(g.current).reloadTime
    ensures var (ok, g') := FireGate(g, now);
      g' == g.(ammo := g.ammo[g.current := Weapon(g.current).magSize], reloading := false) &&
      (ok <==> now - g.lastShotTime >= Weapon(g.current).fireRate)
  {
  }

  /** On an empty magazine (and no reload pending) `can_shoot` refuses and
      starts a reload stamped `now`. */
  lemma FireGateEmptyStartsReload(g: Gun, now: int)
    requires HasAllMagazines(g)
    requires !g.reloading && Rounds(g) <= 0
    ensures var (ok, g') := FireGate(g, now);
      !ok && g' == g.(reloading := true, reloadStart := now)
  {
  }

  /** A shot is allowed only when no reload is pending afterwards, the
      magazine is not empty and the fire-rate interval has elapsed; and a
      refusal for the fire rate alone leaves the gun as it is. */
  lemma FireGateOpens(g: Gun, now: int)
    requires HasAllMagazines(g)
    ensures var (ok, g') := FireGate(g, now);
      HasAllMagazines(g') && g'.current == g.current && g'.lastShotTime == g.lastShotTime &&
      (ok ==> !g'.reloading && Rounds(g') > 0 && now - g.lastShotTime >= Weapon(g.current).fireRate) &&
      (!g.reloading && Rounds(g) > 0 ==> g' == g && (ok <==> now - g.lastShotTime >= Weapon(g.current).fireRate))
  {
  }

  /** `shoot` takes exactly one round from the current magazine, leaves the
      other magazines alone and records the shot time. */
  lemma ConsumeRoundEffect(g: Gun, now: int)
    requires HasAllMagazines(g)
    ensures HasAllMagazines(ConsumeRound(g, now))
    ensures Rounds(ConsumeRound(g, now)) == Rounds(g) - 1 && ConsumeRound(g, now).lastShotTime == now
    ensures forall w: WeaponId :: w != g.current ==> ConsumeRound(g, now).ammo[w] == g.ammo[w]
  {
  }

  /** The operations on the gun that the game performs. */
  datatype GunEvent = TryFire(now: int) | ManualReload(now: int) | SelectWeapon(w: WeaponId)

  /** One event: a fire attempt consumes a round only when the gate opens. */
  function Step(g: Gun, e: GunEvent): Gun
    requires HasAllMagazines(g)
  {
    match e
    case TryFire(now) =>
      var (ok, g1) := FireGate(g, now);
      if ok then ConsumeRound(g1, now) else g1
    case ManualReload(now) => BeginReload(g, now)
    case SelectWeapon(w) => SwitchTo(g, w)
  }

  lemma {:induction false} StepKeepsMagazinesInRange(g: Gun, e: GunEvent)
    requires MagazinesInRange(g)
    ensures HasAllMagazines(g) && MagazinesInRange(Step(g, e))
  {
    match e
    case TryFire(now) =>
      FireGateOpens(g, now);
      var (ok, g1) := FireGate(g, now);
      assert MagazinesInRange(g1);
      if ok {
        ConsumeRoundEffect(g1, now);
      }
    case ManualReload(now) =>
    case SelectWeapon(w) =>
  }

  function Run(g: Gun, es: seq<GunEvent>): Gun
    requires MagazinesInRange(g)
    decreases |es|
  {
    StepKeepsMagazinesInRange(g, if es == [] then SelectWeapon(g.current) else es[0]);
    if es == [] then g else Run(Step(g, es[0]), es[1..])
  }

  /** Whatever sequence of fire attempts, reloads and weapon switches a game
      performs, every magazine stays within [0, mag_size]. */
  lemma {:induction false} RunKeepsMagazinesInRange(g: Gun, es: seq<GunEvent>)
    requires MagazinesInRange(g)
    ensures MagazinesInRange(Run(g, es))
    decreases |es|
  {
    if es != [] {
      StepKeepsMagazinesInRange(g, es[0]);
      RunKeepsMagazinesInRange(Step(g, es[0]), es[1..]);
    }
  }

  /** `take_damage`: the new hp (floored at 0) and whether the player died. */
  function Damage(hp: real, amount: real): (r: (real, bool))
    ensures r.0 >= 0.0
    ensures r.1 <==> hp - amount <= 0.0
    ensures r.1 ==> r.0 == 0.0
    ensures !r.1 ==> r.0 == hp - amount
  {
    if hp - amount <= 0.0 then (0.0, true) else (hp - amount, false)
  }

  /** `heal`: adds and caps at `max_hp`. */
  function Healed(hp: real, maxHp: real, amount: real): (r: real)
    ensures r <= maxHp
    ensures r == maxHp || r == hp + amount
    ensures 0.0 <= hp <= maxHp && amount >= 0.0 ==> hp <= r
  {
    if hp + amount < maxHp then hp + amount else maxHp
  }

  /** Damage and healing by non-negative amounts, in any order, keep the hp
      within [0, max_hp]. */
  datatype HpEvent = Hit(amount: real) | Heal(amount: real)

  function ApplyHp(hp: real, maxHp: real, es: seq<HpEvent>): real
    decreases |es|
  {
    if es == [] then hp
    else
      var hp' := match es[0]
        case Hit(a) => Damage(hp, a).0
        case Heal(a) => Healed(hp, maxHp, a);
      ApplyHp(hp', maxHp, es[1..])
  }

  lemma {:induction false} HpStaysInRange(hp: real, maxHp: real, es: seq<HpEvent>)
    requires 0.0 <= hp <= maxHp
    requires forall i :: 0 <= i < |es| ==> es[i].amount >= 0.0
    ensures 0.0 <= ApplyHp(hp, maxHp, es) <= maxHp
    decreases |es|
  {
    if es != [] {
      var hp' := match es[0]
        case Hit(a) => Damage(hp, a).0
        case Heal(a) => Healed(hp, maxHp, a);
      HpStaysInRange(hp', maxHp, es[1..]);
    }
  }

  /** The per-frame movement of `handle_input`: each pressed key sets its
      axis to +-speed (down and right win over up and left), and a diagonal
      move is scaled by 0.7071. */
  function MoveDelta(up: bool, down: bool, left: bool, right: bool): (d: (real, real))
    ensures (d.0 > 0.0 <==> right) && (d.0 < 0.0 <==> left && !right)
    ensures (d.1 > 0.0 <==> down) && (d.1 < 0.0 <==> up && !down)
    ensures d.0 != 0.0 && d.1 != 0.0 ==>
              (d.0 == 2.8284 || d.0 == -2.8284) && (d.1 == 2.8284 || d.1 == -2.8284)
    ensures d.0 == 0.0 || d.1 == 0.0 ==>
              (d.0 == 0.0 || d.0 == 4.0 || d.0 == -4.0) && (d.1 == 0.0 || d.1 == 4.0 || d.1 == -4.0)
  {
    var s := PLAYER_SPEED as real;
    var dy := if down then s else if up then -s else 0.0;
    var dx := if right then s else if left then -s else 0.0;
    if dx != 0.0 && dy != 0.0 then (dx * 0.7071, dy * 0.7071) else (dx, dy)
  }

  class Player {
    var x: real
    var y: real
    var rect: Rect
    var angle: real
    const maxHp: real
    var hp: real
    var currentWeapon: WeaponId
    var ammo: map<WeaponId, int>
    var lastShotTime: int
    var reloading: bool
    var reloadStart: int
    var score: int
    var kills: int

    function GunState(): Gun
      reads this
    {
      Gun(currentWeapon, ammo, reloading, reloadStart, lastShotTime)
    }

    ghost predicate Valid()
      reads this
    {
      HasAllMagazines(GunState()) && maxHp > 0.0
    }

    ghost predicate HpInRange()
      reads this
    {
      0.0 <= hp <= maxHp
    }

    /** A player at (px, py) for the difficulty `d`. */
    constructor (px: int, py: int, d: Difficulty)
      ensures Valid() && HpInRange()
      ensures x == px as real && y == py as real && angle == 0.0
      ensures rect == CenteredAt(px, py, PLAYER_SIZE, PLAYER_SIZE)
      ensures maxHp == Profile(d).playerHp as real && hp == maxHp
      ensures GunState() == NewGun() && MagazinesInRange(GunState())
      ensures score == 0 && kills == 0
    {
      x, y := px as real, py as real;
      rect := CenteredAt(px, py, PLAYER_SIZE, PLAYER_SIZE);
      angle := 0.0;
      maxHp := Profile(d).playerHp as real;
      hp := Profile(d).playerHp as real;
      currentWeapon := Pistol;
      ammo := NewGun().ammo;
      lastShotTime := 0;
      reloading := false;
      reloadStart := 0;
      score, kills := 0, 0;
    }

    method SwitchWeapon(w: WeaponId)
      modifies this`currentWeapon, this`reloading
      ensures GunState() == SwitchTo(old(GunState()), w)
    {
      if w != currentWeapon {
        currentWeapon := w;
        reloading := false;
      }
    }

    method StartReload(now: int)
      requires Valid()
      modifies this`reloading, this`reloadStart
      ensures Valid()
      ensures GunState() == BeginReload(old(GunState()), now)
    {
      if !reloading && ammo[currentWeapon] < Weapon(currentWeapon).magSize {
        reloading := true;
        reloadStart := now;
      }
    }

    method CanShoot(now: int) returns (ok: bool)
      requires Valid()
      modifies this`ammo, this`reloading, this`reloadStart
      ensures Valid()
      ensures (ok, GunState()) == FireGate(old(GunState()), now)
    {
      var def := Weapon(currentWeapon);
      if reloading {
        if now - reloadStart >= def.reloadTime {
          ammo := ammo[currentWeapon := def.magSize];
          reloading := false;
        } else {
          return false;
        }
      }
      if ammo[currentWeapon] <= 0 {
        StartReload(now);
        return false;
      }
      if now - lastShotTime < def.fireRate {
        return false;
      }
      return true;
    }

    method Shoot(now: int)
      requires Valid()
      modifies this`ammo, this`lastShotTime
      ensures Valid()
      ensures GunState() == ConsumeRound(old(GunState()), now)
    {
      ammo := ammo[currentWeapon := ammo[currentWeapon] - 1];
      lastShotTime := now;
    }

    method TakeDamage(amount: real) returns (dead: bool)
      modifies this`hp
      ensures (hp, dead) == Damage(old(hp), amount)
      ensures old(HpInRange()) && amount >= 0.0 ==> HpInRange()
    {
      hp := hp - amount;
      if hp <= 0.0 {
        hp := 0.0;
        return true;
      }
      return false;
    }

    method Heal(amount: real)
      modifies this`hp
      ensures hp == Healed(old(hp), maxHp, amount)
      ensures old(HpInRange()) && amount >= 0.0 ==> HpInRange()
    {
      hp := if maxHp < hp + amount then maxHp else hp + amount;
    }

    /** `handle_input`: move by the pressed keys, clamp to the world inset by
        PLAYER_SIZE, re-centre the rect, aim at the mouse (given in world
        coordinates), take the rotated image's rect, then switch weapon
        (key 1 before 2 before 3). */
    method HandleInput(up: bool, down: bool, left: bool, right: bool,
                       mouseX: int, mouseY: int,
                       key1: bool, key2: bool, key3: bool, env: Env)
      modifies this`x, this`y, this`rect, this`angle, this`currentWeapon, this`reloading
      ensures var (dx, dy) := MoveDelta(up, down, left, right);
        x == ClampReal(old(x) + dx, PLAYER_SIZE as real, (WORLD_WIDTH - PLAYER_SIZE) as real) &&
        y == ClampReal(old(y) + dy, PLAYER_SIZE as real, (WORLD_HEIGHT - PLAYER_SIZE) as real)
      ensures PLAYER_SIZE as real <= x <= (WORLD_WIDTH - PLAYER_SIZE) as real
      ensures PLAYER_SIZE as real <= y <= (WORLD_HEIGHT - PLAYER_SIZE) as real
      ensures angle == env.atan2Deg(-(mouseY as real - y), mouseX as real - x)
      ensures var (w, h) := env.rotatedSize(PLAYER_SIZE, PLAYER_SIZE, angle);
        rect == CenteredAt(Trunc(x), Trunc(y), w, h)
      ensures var w := if key1 then Pistol else if key2 then Shotgun else Rifle;
        GunState() == if key1 || key2 || key3 then SwitchTo(old(GunState()), w)
                      else old(GunState())
    {
      var (dx, dy) := MoveDelta(up, down, left, right);
      x := x + dx;
      y := y + dy;
      x := ClampReal(x, PLAYER_SIZE as real, (WORLD_WIDTH - PLAYER_SIZE) as real);
      y := ClampReal(y, PLAYER_SIZE as real, (WORLD_HEIGHT - PLAYER_SIZE) as real);
      rect := CenteredAt(Trunc(x), Trunc(y), rect.w, rect.h);

      angle := env.atan2Deg(-(mouseY as real - y), mouseX as real - x);
      var (w, h) := env.rotatedSize(PLAYER_SIZE, PLAYER_SIZE, angle);
      CenteredAtCentre(Trunc(x), Trunc(y), rect.w, rect.h);
      rect := CenteredAt(rect.CenterX(), rect.CenterY(), w, h);

      if key1 {
        SwitchWeapon(Pistol);
      } else if key2 {
        SwitchWeapon(Shotgun);
      } else if key3 {
        SwitchWeapon(Rifle);
      }
    }
  }
}
