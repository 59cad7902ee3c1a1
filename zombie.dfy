/** Zombies: stats derived from the difficulty and the type, the chase
    step, the attack cooldown, damage, and the spawn position and type. */
module Zombies {
  import opened Geometry
  import opened Settings
  import opened Environment
  import opened Choice

  /** Milliseconds between two attacks of the same zombie. */
  const ATTACK_COOLDOWN: int := 800
  /** How much the wobble phase advances per chase step. */
  const WOBBLE_STEP: real := 0.05
  /** Spawn positions are kept this far inside the world on each side. */
  const SPAWN_MARGIN: int := 20

  datatype ZombieStats = ZombieStats(speed: real, maxHp: real, damage: real, score: nat)

  /** The stats a zombie of kind `k` gets at difficulty `d`: speed, hp and
      damage are the difficulty's values scaled by the type's multipliers;
      the score is the type's own. */
  function Stats(d: Difficulty, k: ZombieKind): ZombieStats
  {
    var p := Profile(d);
    var t := ZombieTypeInfo(k);
    ZombieStats(p.zombieSpeed * t.speedMult, p.zombieHp as real * t.hpMult,
                p.damagePerHit as real * t.damageMult, t.score)
  }

  /** Every stat is positive, the score does not depend on the difficulty,
      and the types are ordered as designed: fast zombies are the quickest
      and frailest, tanks the slowest, toughest and hardest-hitting. */
  lemma {:induction false} StatsOrdering(d: Difficulty, d2: Difficulty)
    ensures forall k: ZombieKind :: Stats(d, k).speed > 0.0 && Stats(d, k).maxHp > 0.0 &&
                                    Stats(d, k).damage > 0.0 && Stats(d, k).score > 0
    ensures forall k: ZombieKind :: Stats(d, k).score == Stats(d2, k).score
    ensures Stats(d, Fast).speed > Stats(d, Normal).speed > Stats(d, Tank).speed
    ensures Stats(d, Fast).maxHp < Stats(d, Normal).maxHp < Stats(d, Tank).maxHp
    ensures Stats(d, Fast).damage < Stats(d, Normal).damage < Stats(d, Tank).damage
  {
    forall k: ZombieKind
      ensures Stats(d, k).speed > 0.0 && Stats(d, k).maxHp > 0.0 &&
              Stats(d, k).damage > 0.0 && Stats(d, k).score > 0
      ensures Stats(d, k).score == Stats(d2, k).score
    {
      match k
      case Normal =>
      case Fast =>
      case Tank =>
    }
    match d
    case Easy =>
    case Medium =>
    case Hard =>
    case Extreme =>
  }

  /** `can_attack`: the verdict and the new `last_attack`. */
  function AttackGate(lastAttack: int, now: int): (bool, int)
  {
    if now - lastAttack >= ATTACK_COOLDOWN then (true, now) else (false, lastAttack)
  }

  /** An attack is allowed exactly when the cooldown has elapsed; an allowed
      attack restarts the cooldown at `now`, so a second call at the same
      instant is refused, and two allowed attacks of successive calls are at
      least ATTACK_COOLDOWN apart. */
  lemma AttackGateCooldown(lastAttack: int, now: int, later: int)
    ensures var (ok, last1) := AttackGate(lastAttack, now);
      (ok <==> now - lastAttack >= ATTACK_COOLDOWN) &&
      (ok ==> last1 == now) && (!ok ==> last1 == lastAttack) &&
      (ok ==> !AttackGate(last1, now).0) &&
      (ok && AttackGate(last1, later).0 ==> later - now >= ATTACK_COOLDOWN)
  {
  }

  /** The relative weights of `ZOMBIE_KINDS`. */
  function KindWeights(): (ws: seq<nat>)
    ensures |ws| == |ZOMBIE_KINDS| && Sum(ws) == 100
    ensures forall i :: 0 <= i < |ws| ==> ws[i] == ZombieTypeInfo(ZOMBIE_KINDS[i]).weight
  {
    [ZombieTypeInfo(Normal).weight, ZombieTypeInfo(Fast).weight, ZombieTypeInfo(Tank).weight]
  }

  /** The weighted type pick of `spawn_zombie`, for the unit draw `u`. */
  function PickKind(u: real): ZombieKind
    requires 0.0 <= u < 1.0
  {
    ZOMBIE_KINDS[Pick(KindWeights(), u * Sum(KindWeights()) as real)]
  }

  /** The draw is split into bands as wide as the weights:
      60% normal, 25% fast and 15% tank. */
  lemma {:induction false} PickKindBands(u: real)
    requires 0.0 <= u < 1.0
    ensures u < 0.60 ==> PickKind(u) == Normal
    ensures 0.60 <= u < 0.85 ==> PickKind(u) == Fast
    ensures 0.85 <= u ==> PickKind(u) == Tank
  {
    var ws := KindWeights();
    var x := u * 100.0;
    assert ws == [60, 25, 15];
    assert ws[1..] == [25, 15];
    assert ws[1..][1..] == [15];
    if x < 60.0 {
      assert Pick(ws, x) == 0;
    } else if x < 85.0 {
      assert Pick(ws[1..], x - 60.0) == 0;
    } else {
      assert Pick(ws[1..][1..], x - 85.0) == 0;
    }
  }

  /** The spawn position of `spawn_zombie`: the player's position plus the
      random polar offset (ox, oy), clamped into the world inset by
      SPAWN_MARGIN. */
  function SpawnPosition(px: real, py: real, ox: real, oy: real): (r: (real, real))
    ensures SPAWN_MARGIN as real <= r.0 <= (WORLD_WIDTH - SPAWN_MARGIN) as real
    ensures SPAWN_MARGIN as real <= r.1 <= (WORLD_HEIGHT - SPAWN_MARGIN) as real
    ensures SPAWN_MARGIN as real <= px + ox <= (WORLD_WIDTH - SPAWN_MARGIN) as real ==> r.0 == px + ox
    ensures SPAWN_MARGIN as real <= py + oy <= (WORLD_HEIGHT - SPAWN_MARGIN) as real ==> r.1 == py + oy
  {
    (ClampReal(px + ox, SPAWN_MARGIN as real, (WORLD_WIDTH - SPAWN_MARGIN) as real),
     ClampReal(py + oy, SPAWN_MARGIN as real, (WORLD_HEIGHT - SPAWN_MARGIN) as real))
  }

  /** `v` scaled by `k`. */
  function Scaled(v: (real, real), k: real): (real, real)
  {
    (v.0 * k, v.1 * k)
  }

  /** The part of a zombie that `update` changes. */
  datatype Mover = Mover(x: real, y: real, rect: Rect, wobbleTimer: real)

  /** `update(player_pos)` for a zombie of kind `k` with the given speed and
      wobble amplitude: when the player is elsewhere, advance the wobble,
      take one step of length `speed` along the steering direction,
      re-centre the rect on the truncated position and take the size of the
      image rotated to face the player. */
  function Chase(m: Mover, k: ZombieKind, speed: real, wobbleOffset: real,
                 px: real, py: real, env: Env): Mover
  {
    var dx, dy := px - m.x, py - m.y;
    if dx != 0.0 || dy != 0.0 then
      var timer := m.wobbleTimer + WOBBLE_STEP;
      var step := Scaled(env.steer(dx, dy, timer, wobbleOffset), speed);
      var x, y := m.x + step.0, m.y + step.1;
      var size := env.rotatedSize(ZombieTypeInfo(k).size, ZombieTypeInfo(k).size, env.atan2Deg(-dy, dx));
      Mover(x, y, CenteredAt(Trunc(x), Trunc(y), size.0, size.1), timer)
    else
      m
  }

  /** A zombie standing on the player's position does not move; otherwise
      it moves by exactly one step of its speed, its wobble phase advances
      by WOBBLE_STEP and its rect is centred on its truncated new position. */
  lemma ChaseEffect(m: Mover, k: ZombieKind, speed: real, wobbleOffset: real,
                    px: real, py: real, env: Env)
    ensures px == m.x && py == m.y ==> Chase(m, k, speed, wobbleOffset, px, py, env) == m
    ensures px != m.x || py != m.y ==>
      var c := Chase(m, k, speed, wobbleOffset, px, py, env);
      var step := Scaled(env.steer(px - m.x, py - m.y, m.wobbleTimer + WOBBLE_STEP, wobbleOffset), speed);
      c.x == m.x + step.0 && c.y == m.y + step.1 && c.wobbleTimer == m.wobbleTimer + WOBBLE_STEP &&
      c.rect.CenterX() == Trunc(c.x) && c.rect.CenterY() == Trunc(c.y)
  {
    var c := Chase(m, k, speed, wobbleOffset, px, py, env);
    if px != m.x || py != m.y {
      CenteredAtCentre(Trunc(c.x), Trunc(c.y), c.rect.w, c.rect.h);
    }
  }

  class Zombie {
    const kind: ZombieKind
    var x: real
    var y: real
    var rect: Rect
    const speed: real
    const maxHp: real
    var hp: real
    const damage: real
    const scoreValue: nat
    var lastAttack: int
    const wobbleOffset: real
    var wobbleTimer: real

    /** A zombie of kind `k` at (x0, y0) for difficulty `d`; the wobble
        amplitude is `uniform(-0.5, 0.5)` from the unit draw `wobbleDraw`
        and the initial wobble phase is given. */
    constructor (x0: real, y0: real, k: ZombieKind, d: Difficulty, wobbleDraw: real, phase: real)
      ensures kind == k && x == x0 && y == y0
      ensures rect == CenteredAt(Trunc(x0), Trunc(y0), ZombieTypeInfo(k).size, ZombieTypeInfo(k).size)
      ensures ZombieStats(speed, maxHp, damage, scoreValue) == Stats(d, k) && hp == maxHp
      ensures lastAttack == 0
      ensures wobbleOffset == -0.5 + wobbleDraw && wobbleTimer == phase
    {
      var st := Stats(d, k);
      kind := k;
      x, y := x0, y0;
      rect := CenteredAt(Trunc(x0), Trunc(y0), ZombieTypeInfo(k).size, ZombieTypeInfo(k).size);
      speed := st.speed;
      maxHp := st.maxHp;
      hp := st.maxHp;
      damage := st.damage;
      scoreValue := st.score;
      lastAttack := 0;
      wobbleOffset := -0.5 + wobbleDraw;
      wobbleTimer := phase;
    }

    function Motion(): Mover
      reads this
    {
      Mover(x, y, rect, wobbleTimer)
    }

    /** `update(player_pos)`. */
    method Update(px: real, py: real, env: Env)
      modifies this`x, this`y, this`rect, this`wobbleTimer
      ensures Motion() == Chase(old(Motion()), kind, speed, wobbleOffset, px, py, env)
    {
      var dx, dy := px - x, py - y;
      if dx != 0.0 || dy != 0.0 {
        wobbleTimer := wobbleTimer + WOBBLE_STEP;
        var step := Scaled(env.steer(dx, dy, wobbleTimer, wobbleOffset), speed);
        x := x + step.0;
        y := y + step.1;
        rect := CenteredAt(Trunc(x), Trunc(y), rect.w, rect.h);
        var angle := env.atan2Deg(-dy, dx);
        var size := env.rotatedSize(ZombieTypeInfo(kind).size, ZombieTypeInfo(kind).size, angle);
        CenteredAtCentre(Trunc(x), Trunc(y), rect.w, rect.h);
        rect := CenteredAt(rect.CenterX(), rect.CenterY(), size.0, size.1);
      }
    }

    /** `can_attack(now)`. */
    method CanAttack(now: int) returns (ok: bool)
      modifies this`lastAttack
      ensures (ok, lastAttack) == AttackGate(old(lastAttack), now)
    {
      if now - lastAttack >= ATTACK_COOLDOWN {
        lastAttack := now;
        return true;
      }
      return false;
    }

    /** `take_damage(amount)`: no floor at zero. */
    method TakeDamage(amount: real) returns (dead: bool)
      modifies this`hp
      ensures hp == old(hp) - amount
      ensures dead <==> hp <= 0.0
    {
      hp := hp - amount;
      dead := hp <= 0.0;
    }
  }

  /** `spawn_zombie(player_pos, difficulty)`, with the type draw, the polar
      offset and the wobble draws supplied. */
  method SpawnZombie(px: real, py: real, d: Difficulty, kindDraw: real,
                     ox: real, oy: real, wobbleDraw: real, phase: real)
      returns (z: Zombie)
    requires 0.0 <= kindDraw < 1.0
    ensures fresh(z)
    ensures z.kind == PickKind(kindDraw) && (z.x, z.y) == SpawnPosition(px, py, ox, oy)
    ensures SPAWN_MARGIN as real <= z.x <= (WORLD_WIDTH - SPAWN_MARGIN) as real
    ensures SPAWN_MARGIN as real <= z.y <= (WORLD_HEIGHT - SPAWN_MARGIN) as real
    ensures ZombieStats(z.speed, z.maxHp, z.damage, z.scoreValue) == Stats(d, z.kind)
    ensures z.hp == z.maxHp && z.lastAttack == 0
  {
    var k := PickKind(kindDraw);
    var pos := SpawnPosition(px, py, ox, oy);
    z := new Zombie(pos.0, pos.1, k, d, wobbleDraw, phase);
  }
}
