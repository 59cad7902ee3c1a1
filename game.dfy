/** The game: the menu/pause state machine driven by keys, the start of a
    session, and one frame of simulation with its passes in their fixed
    order. */
module Games {
  import opened Geometry
  import opened Settings
  import opened Environment
  import opened Players
  import opened Weapons
  import opened Bullets
  import opened Zombies
  import opened Obstacles
  import opened Levels
  import opened Cameras
  import opened Combat
  import opened Sessions

  /** Player position at the start of a session: the world's centre. */
  const START_X: int := WORLD_WIDTH / 2
  const START_Y: int := WORLD_HEIGHT / 2

  datatype GameState = Menu | ChooseDifficulty | Playing | Paused | GameOver

  /** The keys the game reacts to; every other key is `OtherKey`. */
  datatype Key = Escape | ReloadKey | OtherKey

  /** The state after a key press (`_handle_key`, its first part). */
  function AfterKey(s: GameState, k: Key): GameState
  {
    if k != Escape then s
    else match s
      case Playing => Paused
      case Paused => Playing
      case ChooseDifficulty => Menu
      case _ => s
  }

  /** Escape pauses and resumes the game and leaves the difficulty screen
      for the menu; it does nothing on the menu and the game-over screen,
      and two presses while playing or paused come back to the same state.
      No other key changes the state. */
  lemma AfterKeyTransitions(s: GameState, k: Key)
    ensures k != Escape ==> AfterKey(s, k) == s
    ensures AfterKey(Playing, Escape) == Paused && AfterKey(Paused, Escape) == Playing
    ensures AfterKey(ChooseDifficulty, Escape) == Menu
    ensures AfterKey(Menu, Escape) == Menu && AfterKey(GameOver, Escape) == GameOver
    ensures s == Playing || s == Paused ==> AfterKey(AfterKey(s, Escape), Escape) == s
    ensures AfterKey(s, k) == Playing ==> s == Playing || s == Paused
  {
  }

  /** What one frame reads from the devices and the random source: the
      movement and weapon keys, the mouse (screen coordinates and the left
      button), the spread draws of a shot, and the draws of a spawn (type,
      polar offset, wobble amplitude and phase). */
  datatype FrameInput = FrameInput(
    up: bool, down: bool, left: bool, right: bool,
    key1: bool, key2: bool, key3: bool,
    mouseX: int, mouseY: int, firing: bool,
    spreadDraws: seq<real>,
    kindDraw: real, spawnOffsetX: real, spawnOffsetY: real, wobbleDraw: real, phase: real)

  /** The draws are in range and there are enough spread draws for any
      weapon. */
  predicate InputOk(inp: FrameInput)
  {
    (forall w: WeaponId :: |inp.spreadDraws| >= Weapon(w).bulletsPerShot) &&
    (forall i :: 0 <= i < |inp.spreadDraws| ==> 0.0 <= inp.spreadDraws[i] < 1.0) &&
    0.0 <= inp.kindDraw < 1.0
  }

  // ---------------------------------------------------------------------
  // Value snapshots of the sprite groups

  function ShotsOf(bs: seq<Bullet>): (r: seq<Shot>)
    reads bs
    ensures |r| == |bs|
    ensures forall i :: 0 <= i < |bs| ==> r[i] == Shot(bs[i], bs[i].rect, bs[i].damage)
  {
    seq(|bs|, i requires 0 <= i < |bs| reads bs => Shot(bs[i], bs[i].rect, bs[i].damage))
  }

  function FoesOf(zs: seq<Zombie>): (r: seq<Foe>)
    reads zs
    ensures |r| == |zs|
    ensures forall i :: 0 <= i < |zs| ==> r[i] == Foe(zs[i], zs[i].rect, zs[i].hp)
  {
    seq(|zs|, i requires 0 <= i < |zs| reads zs => Foe(zs[i], zs[i].rect, zs[i].hp))
  }

  function AssailantsOf(zs: seq<Zombie>): (r: seq<Assailant>)
    reads zs
    ensures |r| == |zs|
    ensures forall i :: 0 <= i < |zs| ==>
      r[i] == Assailant(zs[i], zs[i].rect, zs[i].x, zs[i].y, zs[i].lastAttack)
  {
    seq(|zs|, i requires 0 <= i < |zs| reads zs =>
      Assailant(zs[i], zs[i].rect, zs[i].x, zs[i].y, zs[i].lastAttack))
  }

  /** The bullets still in play after their move, in order. */
  function InPlay(bs: seq<Bullet>, now: int): (r: seq<Bullet>)
    reads bs
    ensures |r| <= |bs|
    ensures forall i :: 0 <= i < |r| ==> r[i] in bs && !OutOfPlay(r[i].x, r[i].y, now - r[i].spawnTime)
    ensures forall i :: 0 <= i < |bs| && !OutOfPlay(bs[i].x, bs[i].y, now - bs[i].spawnTime) ==> bs[i] in r
    decreases |bs|
  {
    if bs == [] then []
    else
      var b := bs[|bs| - 1];
      assert forall i :: 0 <= i < |bs| - 1 ==> bs[..|bs| - 1][i] == bs[i];
      InPlay(bs[..|bs| - 1], now) + (if OutOfPlay(b.x, b.y, now - b.spawnTime) then [] else [b])
  }

  /** Dropping the bullets out of play keeps every remaining bullet once. */
  lemma {:induction false} InPlayDistinct(bs: seq<Bullet>, now: int)
    requires Distinct(bs)
    ensures Distinct(InPlay(bs, now))
    decreases |bs|
  {
    if bs != [] {
      var n := |bs| - 1;
      InPlayDistinct(bs[..n], now);
      var front := InPlay(bs[..n], now);
      forall i | 0 <= i < |front|
        ensures front[i] != bs[n]
      {
        var k :| 0 <= k < n && bs[..n][k] == front[i];
      }
    }
  }

  /** The bullet–zombie pass keeps every remaining bullet once. */
  lemma KeptDistinct(bs: seq<Bullet>, zs: seq<Zombie>)
    requires Distinct(bs) && Distinct(zs)
    ensures Distinct(BulletsOf(Volley(ShotsOf(bs), FoesOf(zs)).kept))
  {
    assert BulletsOf(ShotsOf(bs)) == bs && ZombiesOf(FoesOf(zs)) == zs;
    VolleyDistinct(ShotsOf(bs), FoesOf(zs));
  }

  /** The bullet has left the world or outlived its lifetime. */
  predicate Expired(b: Bullet, now: int)
    reads b
  {
    OutOfPlay(b.x, b.y, now - b.spawnTime)
  }

  /** The bullets of `bs` whose flag in `outs` is false, in order. */
  function Survivors(bs: seq<Bullet>, outs: seq<bool>): seq<Bullet>
    requires |outs| == |bs|
    decreases |bs|
  {
    if bs == [] then []
    else
      var n := |bs| - 1;
      Survivors(bs[..n], outs[..n]) + (if outs[n] then [] else [bs[n]])
  }

  lemma SurvivorsSnoc(bs: seq<Bullet>, outs: seq<bool>, b: Bullet, out: bool)
    requires |outs| == |bs|
    ensures Survivors(bs + [b], outs + [out]) == Survivors(bs, outs) + (if out then [] else [b])
  {
    assert (bs + [b])[..|bs|] == bs && (outs + [out])[..|bs|] == outs;
  }

  /** Flags that say which bullets expired select the bullets in play. */
  lemma {:induction false} SurvivorsInPlay(bs: seq<Bullet>, outs: seq<bool>, now: int)
    requires |outs| == |bs| && forall j :: 0 <= j < |bs| ==> outs[j] == Expired(bs[j], now)
    ensures Survivors(bs, outs) == InPlay(bs, now)
    decreases |bs|
  {
    if bs != [] {
      var n := |bs| - 1;
      SurvivorsInPlay(bs[..n], outs[..n], now);
    }
  }

  /** The bullet has moved by its velocity once since the old state, its
      rect following its new position. */
  twostate predicate Stepped(b: Bullet)
    reads b
  {
    b.Course() == Travel(old(b.Course()), b.vx, b.vy)
  }

  /** The zombie has chased (px, py) once since the old state and, when
      there are obstacles, been pushed out of them; its hp and attack time
      are untouched. */
  twostate predicate Chased(z: Zombie, px: real, py: real, obstacles: seq<Obstacle>, env: Env)
    reads z
  {
    z.Motion() == Settle(Chase(old(z.Motion()), z.kind, z.speed, z.wobbleOffset, px, py, env), obstacles) &&
    z.hp == old(z.hp) && z.lastAttack == old(z.lastAttack)
  }

  /** The push-out of a moved entity, when there are obstacles. */
  function Settle(m: Mover, obstacles: seq<Obstacle>): Mover
  {
    if obstacles == [] then m
    else
      var b := ResolveAll(Body(m.x, m.y, m.rect, false), obstacles);
      Mover(b.x, b.y, b.rect, m.wobbleTimer)
  }

  class Game {
    var state: GameState
    var difficulty: Difficulty
    var player: Player?
    var camera: Camera?
    var level: LevelManager?
    var zombies: seq<Zombie>
    var bullets: seq<Bullet>
    var obstacles: seq<Obstacle>

    /** A session is set up (see `SessionOk`). */
    ghost predicate Ready()
      reads this, player, camera, level
    {
      SessionOk(player, camera, level, zombies, bullets, difficulty)
    }

    ghost predicate Valid()
      reads this, player, camera, level
    {
      state == Playing || state == Paused || state == GameOver ==> Ready()
    }

    /** The game on its main menu, with no session yet. */
    constructor ()
      ensures state == Menu && player == null && camera == null && level == null
      ensures zombies == [] && bullets == [] && obstacles == []
      ensures Valid()
    {
      state := Menu;
      difficulty := Easy;
      player, camera, level := null, null, null;
      zombies, bullets, obstacles := [], [], [];
    }

    /** `_start_game(difficulty)`: a new player at the world's centre, a
        camera following it, a new scheduler, no zombies or bullets, a new
        obstacle field around the player's start, and the game running. */
    method StartGame(d: Difficulty, now: int, cands: seq<Candidate>, hasAsset: ObstacleKind -> bool)
      requires ValidCandidates(cands) && |cands| >= MAX_ATTEMPTS
      modifies this
      ensures state == Playing && difficulty == d && Valid()
      ensures fresh(player) && fresh(camera) && fresh(level)
      ensures player.x == START_X as real && player.y == START_Y as real
      ensures player.hp == Profile(d).playerHp as real && player.GunState() == NewGun()
      ensures player.score == 0 && player.kills == 0
      ensures level.State() == Initial(d, now)
      ensures camera.offsetX == 0.0 && camera.offsetY == 0.0
      ensures zombies == [] && bullets == []
      ensures obstacles == Generate(cands, START_X as real, START_Y as real, hasAsset)
    {
      var p := new Player(START_X, START_Y, d);
      var c := new Camera();
      c.Follow(p);
      var l := new LevelManager(d, now);
      InitialIsFirstWave(d, now);
      var placed := PlaceObstacles(cands, p.x, p.y, hasAsset);
      Begin(d, p, c, l, placed);
    }

    /** Installs the objects of a new session and sets the game running. */
    method Begin(d: Difficulty, p: Player, c: Camera, l: LevelManager, placed: seq<Obstacle>)
      requires SessionOk(p, c, l, [], [], d)
      modifies this
      ensures state == Playing && difficulty == d && Valid()
      ensures player == p && camera == c && level == l
      ensures zombies == [] && bullets == [] && obstacles == placed
    {
      difficulty, player, camera, level := d, p, c, l;
      zombies, bullets, obstacles := [], [], placed;
      state := Playing;
    }

    /** `generate_obstacles` around the player's start. */
    static method PlaceObstacles(cands: seq<Candidate>, sx: real, sy: real, hasAsset: ObstacleKind -> bool)
        returns (placed: seq<Obstacle>)
      requires ValidCandidates(cands) && |cands| >= MAX_ATTEMPTS
      ensures placed == Generate(cands, sx, sy, hasAsset)
    {
      placed := GenerateObstacles(cands, sx, sy, hasAsset);
    }

    // -------------------------------------------------------------------
    // The passes of a frame, in the order `_update` runs them

    /** `player.update(camera)`: the player's input, with the mouse taken
        from the screen to the world by the camera. */
    method SteerPlayer(inp: FrameInput, env: Env)
      requires Ready()
      modifies player`x, player`y, player`rect, player`angle, player`currentWeapon, player`reloading
      ensures Ready()
      ensures var (dx, dy) := MoveDelta(inp.up, inp.down, inp.left, inp.right);
        player.x == ClampReal(old(player.x) + dx, PLAYER_SIZE as real, (WORLD_WIDTH - PLAYER_SIZE) as real) &&
        player.y == ClampReal(old(player.y) + dy, PLAYER_SIZE as real, (WORLD_HEIGHT - PLAYER_SIZE) as real)
      ensures var (mx, my) := camera.Reverse((inp.mouseX, inp.mouseY));
        mx == inp.mouseX + camera.Shift().0 && my == inp.mouseY + camera.Shift().1 &&
        player.angle == env.atan2Deg(-(my as real - player.y), mx as real - player.x)
      ensures var w := if inp.key1 then Pistol else if inp.key2 then Shotgun else Rifle;
        player.GunState() == if inp.key1 || inp.key2 || inp.key3 then SwitchTo(old(player.GunState()), w)
                             else old(player.GunState())
    {
      var (mx, my) := camera.Reverse((inp.mouseX, inp.mouseY));
      player.HandleInput(inp.up, inp.down, inp.left, inp.right, mx, my, inp.key1, inp.key2, inp.key3, env);
      SwitchToEffect(old(player.GunState()), if inp.key1 then Pistol else if inp.key2 then Shotgun else Rifle);
    }

    /** `camera.update()`: one easing step towards the player's centre. */
    method FollowPlayer()
      requires Ready()
      modifies camera`offsetX, camera`offsetY
      ensures Ready()
      ensures var t := TargetOffset(player.rect.CenterX(), player.rect.CenterY());
        camera.offsetX == Approach(old(camera.offsetX), t.0 as real) &&
        camera.offsetY == Approach(old(camera.offsetY), t.1 as real)
    {
      camera.Update();
    }

    /** The player is pushed out of the obstacles, when there are any. */
    method PlayerVsObstacles()
      requires Ready()
      modifies player`x, player`y, player`rect
      ensures Ready()
      ensures var b := ResolveAll(Body(old(player.x), old(player.y), old(player.rect), false), obstacles);
        (player.x, player.y, player.rect) == (b.x, b.y, b.rect)
    {
      if obstacles != [] {
        var x, y, rect, _ := ResolveCollision(player.x, player.y, player.rect, obstacles);
        player.x, player.y, player.rect := x, y, rect;
      }
    }

    /** Holding the left button fires the current weapon: new bullets join
        the group after the old ones, and the gun's state changes as
        `fire_weapon` says; otherwise nothing happens. */
    method FireStep(inp: FrameInput, now: int, env: Env) returns (fired: seq<Bullet>)
      requires Ready() && InputOk(inp)
      modifies this`bullets, player`ammo, player`reloading, player`reloadStart, player`lastShotTime
      ensures Ready()
      ensures bullets == old(bullets) + fired
      ensures !inp.firing ==> fired == [] && player.GunState() == old(player.GunState())
      ensures inp.firing ==>
        var (ok, g1) := FireGate(old(player.GunState()), now);
        if ok then player.GunState() == ConsumeRound(g1, now) &&
                   |fired| == Weapon(player.currentWeapon).bulletsPerShot
        else player.GunState() == g1 && fired == []
      ensures forall i :: 0 <= i < |fired| ==> fresh(fired[i]) && fired[i].spawnTime == now
    {
      fired := [];
      if inp.firing {
        fired := FireWeapon(player, now, inp.spreadDraws, env);
        bullets := bullets + fired;
      }
    }

    /** `bullet.update()` for every bullet: each one moves by its velocity
        once, and those that left the world or outlived LIFETIME leave the
        group. */
    method MoveBullets(now: int)
      requires Ready()
      modifies this`bullets, bullets
      ensures Ready()
      ensures bullets == InPlay(old(bullets), now)
      ensures forall i :: 0 <= i < |old(bullets)| ==> Stepped(old(bullets)[i])
    {
      var kept := StepAll(bullets, now);
      assert SessionOk(player, camera, level, zombies, kept, difficulty);
      bullets := kept;
    }

    /** The loop of the bullet pass over the group `bs`. */
    static method StepAll(bs: seq<Bullet>, now: int) returns (kept: seq<Bullet>)
      requires Distinct(bs)
      modifies bs
      ensures kept == InPlay(bs, now) && Distinct(kept)
      ensures forall i :: 0 <= i < |bs| ==> Stepped(bs[i])
    {
      kept := [];
      ghost var outs: seq<bool> := [];
      for i := 0 to |bs|
        invariant |outs| == i && kept == Survivors(bs[..i], outs)
        invariant forall j :: 0 <= j < i ==> outs[j] == Expired(bs[j], now)
        invariant forall j :: 0 <= j < i ==> Stepped(bs[j])
        invariant forall j :: i <= j < |bs| ==> unchanged(bs[j])
      {
        var b := bs[i];
        assert forall j :: 0 <= j < |bs| && j != i ==> bs[j] != b;
        var killed := b.Update(now);
        SurvivorsSnoc(bs[..i], outs, b, killed);
        assert bs[..i + 1] == bs[..i] + [b];
        outs := outs + [killed];
        if !killed {
          kept := kept + [b];
        }
      }
      assert bs[..|bs|] == bs;
      SurvivorsInPlay(bs, outs, now);
      InPlayDistinct(bs, now);
    }

    /** The spawn step: the scheduler is asked with the number of zombies
        alive and, when it agrees, one new zombie drawn around the player
        joins the group. */
    method SpawnStep(inp: FrameInput, now: int) returns (spawned: bool)
      requires Ready() && 0.0 <= inp.kindDraw < 1.0
      modifies level, this`zombies
      ensures Ready()
      ensures (spawned, level.State()) == SpawnGate(old(level.State()), difficulty, old(|zombies|), now)
      ensures !spawned ==> zombies == old(zombies)
      ensures spawned ==>
        |zombies| == old(|zombies|) + 1 && zombies == old(zombies) + [zombies[old(|zombies|)]] &&
        var z := zombies[old(|zombies|)];
        fresh(z) && z.kind == Zombies.PickKind(inp.kindDraw) &&
        (z.x, z.y) == SpawnPosition(player.x, player.y, inp.spawnOffsetX, inp.spawnOffsetY) &&
        ZombieStats(z.speed, z.maxHp, z.damage, z.scoreValue) == Stats(difficulty, z.kind) &&
        z.hp == z.maxHp && z.lastAttack == 0
    {
      CensusAfterSpawnCheck(level.State(), difficulty, |zombies|, now);
      spawned := level.ShouldSpawn(|zombies|, now);
      if spawned {
        var z := SpawnZombie(player.x, player.y, difficulty, inp.kindDraw,
                             inp.spawnOffsetX, inp.spawnOffsetY, inp.wobbleDraw, inp.phase);
        StatsOrdering(difficulty, difficulty);
        zombies := zombies + [z];
      }
    }

    /** The zombie AI step: every zombie chases the player once and, when
        there are obstacles, is pushed out of them; hp and attack times are
        untouched. */
    method ZombieAI(env: Env)
      requires Ready()
      modifies zombies
      ensures Ready()
      ensures forall i :: 0 <= i < |zombies| ==> Chased(zombies[i], player.x, player.y, obstacles, env)
    {
      Pursue(zombies, player.x, player.y, obstacles, env);
    }

    /** The loop of the zombie AI step over the group `zs`. */
    static method Pursue(zs: seq<Zombie>, px: real, py: real, obstacles: seq<Obstacle>, env: Env)
      requires Distinct(zs)
      modifies zs
      ensures forall i :: 0 <= i < |zs| ==> Chased(zs[i], px, py, obstacles, env)
    {
      for i := 0 to |zs|
        invariant forall k :: 0 <= k < i ==> Chased(zs[k], px, py, obstacles, env)
        invariant forall k :: i <= k < |zs| ==> unchanged(zs[k])
      {
        var z := zs[i];
        assert forall k :: 0 <= k < |zs| && k != i ==> zs[k] != z;
        z.Update(px, py, env);
        if obstacles != [] {
          var x, y, rect, _ := ResolveCollision(z.x, z.y, z.rect, obstacles);
          z.x, z.y, z.rect := x, y, rect;
        }
      }
    }

    /** The bullet–zombie pass: each bullet, in order, damages the first
        zombie it overlaps and is used up; a zombie brought to zero hp or
        below leaves the group, the player is credited its score and a kill,
        and the scheduler is told how many zombies are left. Only the hp of
        zombies changes. */
    method BulletsVsZombies(now: int) returns (ghost v: Melee)
      requires Ready()
      modifies this`bullets, this`zombies, zombies`hp, player`score, player`kills, level
      ensures Ready()
      ensures v == Volley(old(ShotsOf(bullets)), old(FoesOf(zombies)))
      ensures bullets == BulletsOf(v.kept) && FoesOf(zombies) == v.foes
      ensures player.score == old(player.score) + v.score && player.kills == old(player.kills) + v.kills
      ensures level.State() == KillsRecorded(old(level.State()), v.counts, now)
      ensures |zombies| == old(|zombies|) - v.kills
      ensures forall i :: 0 <= i < |zombies| ==> zombies[i] in old(zombies)
    {
      var kept, alive;
      kept, alive, v := Sweep(bullets, zombies, player, camera, level, difficulty, now);
      bullets, zombies := kept, alive;
    }

    /** The bullet–zombie pass on the session's parts: `Shootout`, and the
        session invariant for the groups that are left. */
    static method Sweep(bs: seq<Bullet>, zs: seq<Zombie>, p: Player, c: Camera, l: LevelManager,
                        d: Difficulty, now: int)
        returns (kept: seq<Bullet>, alive: seq<Zombie>, ghost v: Melee)
      requires SessionOk(p, c, l, zs, bs, d)
      modifies zs`hp, p`score, p`kills, l
      ensures SessionOk(p, c, l, alive, kept, d)
      ensures v == Volley(old(ShotsOf(bs)), old(FoesOf(zs)))
      ensures kept == BulletsOf(v.kept) && FoesOf(alive) == v.foes
      ensures p.score == old(p.score) + v.score && p.kills == old(p.kills) + v.kills
      ensures l.State() == KillsRecorded(old(l.State()), v.counts, now)
      ensures |alive| == |zs| - v.kills
      ensures forall i :: 0 <= i < |alive| ==> alive[i] in zs
    {
      ghost var s0 := l.State();
      KeptDistinct(bs, zs);
      kept, alive, v := Shootout(bs, zs, p, l, now);
      assert p.Valid() && p.HpInRange();
      assert forall i :: 0 <= i < |alive| ==> alive[i].damage >= 0.0;
      VolleyAccounting(old(ShotsOf(bs)), old(FoesOf(zs)));
      CensusAfterKills(s0, d, |zs|, v.counts, now);
    }

    /** The loop of the bullet–zombie pass. */
    static method Shootout(bs: seq<Bullet>, zs: seq<Zombie>, p: Player, l: LevelManager, now: int)
        returns (kept: seq<Bullet>, alive: seq<Zombie>, ghost v: Melee)
      requires Distinct(bs) && Distinct(zs) && l.Valid()
      modifies zs`hp, p`score, p`kills, l
      ensures v == Volley(old(ShotsOf(bs)), old(FoesOf(zs)))
      ensures kept == BulletsOf(v.kept) && FoesOf(alive) == v.foes
      ensures Distinct(alive) && forall i :: 0 <= i < |alive| ==> alive[i] in zs
      ensures p.score == old(p.score) + v.score && p.kills == old(p.kills) + v.kills
      ensures l.Valid() && l.State() == KillsRecorded(old(l.State()), v.counts, now)
    {
      ghost var shots := ShotsOf(bs);
      ghost var foes := FoesOf(zs);
      ghost var s0 := l.State();
      kept, alive := [], zs;
      v := Melee(foes, [], 0, 0, 0, []);
      for i := 0 to |bs|
        invariant v == Volley(shots[..i], foes)
        invariant kept == BulletsOf(v.kept)
        invariant FoesOf(alive) == v.foes && Distinct(alive)
        invariant forall k :: 0 <= k < |alive| ==> alive[k] in zs
        invariant p.score == old(p.score) + v.score && p.kills == old(p.kills) + v.kills
        invariant l.Valid() && l.State() == KillsRecorded(s0, v.counts, now)
      {
        VolleySnoc(shots, i, foes);
        var b := bs[i];
        var missed;
        alive, missed, v := Impact(b, shots[i], alive, p, l, now, v, s0);
        if missed {
          kept := kept + [b];
        }
      }
      assert shots[..|bs|] == shots;
    }

    /** One bullet of the bullet–zombie pass, as `Strike` says: the bullet
        `b`, with rect and damage as in `s`, against the group `alive`. */
    static method Impact(b: Bullet, ghost s: Shot, alive: seq<Zombie>, p: Player, l: LevelManager,
                         now: int, ghost m: Melee, ghost s0: Waves)
        returns (rest: seq<Zombie>, missed: bool, ghost n: Melee)
      requires s == Shot(b, b.rect, b.damage)
      requires Distinct(alive) && FoesOf(alive) == m.foes && l.Valid()
      requires l.State() == KillsRecorded(s0, m.counts, now)
      modifies alive`hp, p`score, p`kills, l
      ensures n == Strike(m, s) && FoesOf(rest) == n.foes
      ensures Distinct(rest) && forall k :: 0 <= k < |rest| ==> rest[k] in alive
      ensures p.score == old(p.score) + (n.score - m.score) && p.kills == old(p.kills) + (n.kills - m.kills)
      ensures BulletsOf(n.kept) == if missed then BulletsOf(m.kept) + [b] else BulletsOf(m.kept)
      ensures l.Valid() && l.State() == KillsRecorded(s0, n.counts, now)
    {
      n := Strike(m, s);
      var j := Touching(b.rect, alive);
      missed := j < 0;
      if missed {
        rest := alive;
      } else {
        rest := Wound(alive[j], alive, j, b.damage, p, l, now, m, s, s0);
      }
    }

    /** The bullet `s`, of damage `dmg`, hits zombie `z`, the `j`th of `alive`, as
        `HitFoe` says. */
    static method Wound(z: Zombie, alive: seq<Zombie>, j: nat, dmg: nat, p: Player, l: LevelManager, now: int,
                        ghost m: Melee, ghost s: Shot, ghost s0: Waves)
        returns (rest: seq<Zombie>)
      requires j < |alive| && alive[j] == z && s.damage == dmg
      requires Distinct(alive) && FoesOf(alive) == m.foes && l.Valid()
      requires l.State() == KillsRecorded(s0, m.counts, now)
      modifies z`hp, p`score, p`kills, l
      ensures var n := HitFoe(m, j, s);
        FoesOf(rest) == n.foes && l.Valid() && l.State() == KillsRecorded(s0, n.counts, now) &&
        p.score == old(p.score) + (n.score - m.score) && p.kills == old(p.kills) + (n.kills - m.kills)
      ensures Distinct(rest) && forall k :: 0 <= k < |rest| ==> rest[k] in alive
    {
      var dead := z.TakeDamage(dmg as real);
      assert forall k :: 0 <= k < |alive| && k != j ==> alive[k] != z;
      ghost var hit := FoesOf(alive);
      assert hit == m.foes[j := m.foes[j].(hp := z.hp)];
      rest := alive;
      if dead {
        rest := Slay(z, alive, j, p, l, now, m.counts, s0);
        assert RemoveAt(hit, j) == RemoveAt(m.foes, j);
      }
    }

    /** The zombie `z`, the `j`th of `alive`, dies: it leaves the group,
        the player is credited, and the scheduler told. */
    static method Slay(z: Zombie, alive: seq<Zombie>, j: nat, p: Player, l: LevelManager, now: int,
                       ghost counts: seq<int>, ghost s0: Waves)
        returns (rest: seq<Zombie>)
      requires j < |alive| && alive[j] == z && Distinct(alive) && l.Valid()
      requires l.State() == KillsRecorded(s0, counts, now)
      modifies p`score, p`kills, l
      ensures rest == RemoveAt(alive, j) && FoesOf(rest) == RemoveAt(FoesOf(alive), j)
      ensures Distinct(rest) && forall k :: 0 <= k < |rest| ==> rest[k] in alive
      ensures p.score == old(p.score) + z.scoreValue && p.kills == old(p.kills) + 1
      ensures l.Valid() && l.State() == KillsRecorded(s0, counts + [|rest|], now)
    {
      p.score := p.score + z.scoreValue;
      p.kills := p.kills + 1;
      rest := RemoveAt(alive, j);
      l.OnZombieKilled(|rest|, now);
      KillsRecordedSnoc(s0, counts, |rest|, now);
    }

    /** The zombie–player pass: each zombie touching the player asks its
        attack gate, and an allowed attack deals its damage, reduced when
        the player is behind cover; the pass stops when the player dies. */
    method ZombiesVsPlayer(now: int) returns (died: bool)
      requires Ready()
      modifies zombies`lastAttack, player`hp
      ensures Ready()
      ensures var a := Onslaught(old(AssailantsOf(zombies)), Target(player.rect, player.x, player.y),
                                 old(player.hp), obstacles, now);
        died == a.dead && player.hp == a.hp && |a.lasts| == |zombies| &&
        forall i :: 0 <= i < |zombies| ==> zombies[i].lastAttack == a.lasts[i]
      ensures died ==> player.hp == 0.0
    {
      died := Brawl(zombies, player, obstacles, now);
    }

    /** The loop of the zombie–player pass. */
    static method Brawl(zs: seq<Zombie>, p: Player, obstacles: seq<Obstacle>, now: int) returns (died: bool)
      requires Distinct(zs) && p.HpInRange()
      requires forall i :: 0 <= i < |zs| ==> zs[i].damage >= 0.0
      modifies zs`lastAttack, p`hp
      ensures p.HpInRange()
      ensures var a := Onslaught(old(AssailantsOf(zs)), Target(p.rect, p.x, p.y), old(p.hp), obstacles, now);
        died == a.dead && p.hp == a.hp && |a.lasts| == |zs| &&
        forall i :: 0 <= i < |zs| ==> zs[i].lastAttack == a.lasts[i]
      ensures died ==> p.hp == 0.0
    {
      ghost var as0 := AssailantsOf(zs);
      ghost var t := Target(p.rect, p.x, p.y);
      ghost var a := Assault([], p.hp, false, []);
      died := false;
      var i := 0;
      while i < |zs| && !died
        invariant 0 <= i <= |zs|
        invariant a == Onslaught(as0[..i], t, old(p.hp), obstacles, now) && |a.lasts| == i
        invariant died == a.dead && p.hp == a.hp && p.HpInRange()
        invariant forall k :: 0 <= k < i ==> zs[k].lastAttack == a.lasts[k]
        invariant forall k :: i <= k < |zs| ==> zs[k].lastAttack == old(zs[k].lastAttack)
      {
        var z := zs[i];
        assert forall k :: 0 <= k < |zs| && k != i ==> zs[k] != z;
        assert as0[..i + 1][..i] == as0[..i];
        died, a := Engage(z, p, obstacles, now, a, t, as0[i]);
        i := i + 1;
      }
      if died {
        OnslaughtAfterDeath(as0, i, t, old(p.hp), obstacles, now);
        OnslaughtHp(as0, t, old(p.hp), obstacles, now);
      } else {
        assert as0[..|zs|] == as0;
      }
    }

    /** One zombie of the zombie–player pass, as `Attack` says: the zombie
        `z`, seen as `s`, against the living player `p`, seen as `t`. */
    static method Engage(z: Zombie, p: Player, obstacles: seq<Obstacle>, now: int,
                         ghost a: Assault, ghost t: Target, ghost s: Assailant)
        returns (died: bool, ghost b: Assault)
      requires s == Assailant(z, z.rect, z.x, z.y, z.lastAttack) && t == Target(p.rect, p.x, p.y)
      requires !a.dead && p.hp == a.hp && p.HpInRange() && z.damage >= 0.0
      modifies z`lastAttack, p`hp
      ensures b == Attack(a, s, t, obstacles, now) && b.lasts == a.lasts + [z.lastAttack]
      ensures died == b.dead && p.hp == b.hp && p.HpInRange()
    {
      b := Attack(a, s, t, obstacles, now);
      died := false;
      if Overlaps(z.rect, p.rect) {
        var ok := z.CanAttack(now);
        if ok {
          var covered := CheckBehindCover(p.x, p.y, z.x, z.y, obstacles);
          died := p.TakeDamage(HitDamage(z.damage, covered));
        }
      }
    }

    /** The bullet–obstacle pass: a bullet overlapping the collision rect
        of some obstacle is removed; the others stay, in order. */
    method BulletsVsObstacles()
      requires Ready()
      modifies this`bullets
      ensures Ready()
      ensures bullets == BulletsOf(Unblocked(ShotsOf(old(bullets)), obstacles))
    {
      var kept := Unobstructed(bullets, obstacles);
      assert BulletsOf(ShotsOf(bullets)) == bullets;
      UnblockedDistinct(ShotsOf(bullets), obstacles);
      bullets := kept;
    }

    /** The loop of the bullet–obstacle pass over the group `bs`. */
    static method Unobstructed(bs: seq<Bullet>, obstacles: seq<Obstacle>) returns (kept: seq<Bullet>)
      ensures kept == BulletsOf(Unblocked(ShotsOf(bs), obstacles))
    {
      ghost var shots := ShotsOf(bs);
      kept := [];
      for i := 0 to |bs|
        invariant kept == BulletsOf(Unblocked(shots[..i], obstacles))
      {
        assert shots[..i + 1][..i] == shots[..i];
        var hit := Collides(bs[i].rect, obstacles);
        if !hit {
          kept := kept + [bs[i]];
        }
      }
      assert shots[..|bs|] == shots;
    }

    /** The obstacle loop for one bullet: it stops at the first obstacle
        whose collision rect the bullet overlaps. */
    static method Collides(r: Rect, obstacles: seq<Obstacle>) returns (hit: bool)
      ensures hit == Blocked(r, obstacles)
    {
      var i := 0;
      while i < |obstacles|
        invariant 0 <= i <= |obstacles|
        invariant forall j :: 0 <= j < i ==> !Overlaps(r, obstacles[j].collisionRect)
      {
        if Overlaps(r, obstacles[i].collisionRect) {
          return true;
        }
        i := i + 1;
      }
      return false;
    }

    /** The zombie loop for one bullet: the index of the first zombie whose
        rect the bullet overlaps, or -1. */
    static method Touching(r: Rect, zs: seq<Zombie>) returns (j: int)
      ensures j == FirstTouched(r, FoesOf(zs))
    {
      j := 0;
      while j < |zs|
        invariant 0 <= j <= |zs|
        invariant forall k :: 0 <= k < j ==> !Overlaps(r, zs[k].rect)
      {
        if Overlaps(r, zs[j].rect) {
          ghost var f := FirstTouched(r, FoesOf(zs));
          assert !(0 <= f < j) && !(f < 0);
          return;
        }
        j := j + 1;
      }
      j := -1;
    }

    /** `_update()`: nothing unless the game is running; otherwise one
        frame of passes in their fixed order (see `Frame`). */
    method Update(inp: FrameInput, now: int, env: Env)
        returns (died: bool, ghost spawned: bool, ghost shots: seq<Shot>, ghost foes: seq<Foe>, ghost v: Melee)
      requires Valid() && InputOk(inp)
      modifies this, player, camera, level, zombies, bullets
      ensures Valid()
      ensures old(state) != Playing ==>
        !died && unchanged(this) && unchanged(zombies) && unchanged(bullets) &&
        (player != null ==> unchanged(player)) && (camera != null ==> unchanged(camera)) &&
        (level != null ==> unchanged(level))
      ensures old(state) == Playing ==>
        v == Volley(shots, foes) && bullets == BulletsOf(v.kept) && zombies == ZombiesOf(v.foes) &&
        |foes| == old(|zombies|) + (if spawned then 1 else 0) &&
        (state == GameOver <==> died) && (state == Playing <==> !died) &&
        var (ok, s1) := SpawnGate(old(level.State()), difficulty, old(|zombies|), now);
        var s2 := KillsRecorded(s1, v.counts, now);
        spawned == ok &&
        level.State() == (if died then s2 else Advance(s2, difficulty, now)) &&
        player.score == old(player.score) + v.score && player.kills == old(player.kills) + v.kills &&
        |zombies| == old(|zombies|) + (if ok then 1 else 0) - v.kills
      ensures died ==> player.hp == 0.0
    {
      died, spawned, shots, foes, v := false, false, [], [], Melee([], [], 0, 0, 0, []);
      if state != Playing {
        return;
      }
      died, spawned, shots, foes, v := Frame(inp, now, env);
    }

    /** One frame of a running game. The scheduler is asked about a spawn
        with the zombies alive at the start of the frame, then told of every
        kill, then advanced; a player killed by a zombie ends the game at
        once, before the scheduler's own update. */
    method Frame(inp: FrameInput, now: int, env: Env)
        returns (died: bool, spawned: bool, ghost shots: seq<Shot>, ghost foes: seq<Foe>, ghost v: Melee)
      requires Ready() && state == Playing && InputOk(inp)
      modifies this`state, this`zombies, this`bullets, player, camera, level, zombies, bullets
      ensures Valid()
      ensures v == Volley(shots, foes)
      ensures bullets == BulletsOf(v.kept) && zombies == ZombiesOf(v.foes)
      ensures |foes| == old(|zombies|) + (if spawned then 1 else 0)
      ensures (state == GameOver <==> died) && (state == Playing <==> !died)
      ensures var (ok, s1) := SpawnGate(old(level.State()), difficulty, old(|zombies|), now);
        var s2 := KillsRecorded(s1, v.counts, now);
        spawned == ok &&
        level.State() == (if died then s2 else Advance(s2, difficulty, now)) &&
        player.score == old(player.score) + v.score && player.kills == old(player.kills) + v.kills &&
        |zombies| == old(|zombies|) + (if ok then 1 else 0) - v.kills
      ensures died ==> player.hp == 0.0
    {
      Maneuver(inp, now, env);
      died, spawned, shots, foes, v := Play(inp, now, env);
    }

    /** The passes of a frame from the spawn on, the scheduler's update
        included. */
    method Play(inp: FrameInput, now: int, env: Env)
        returns (died: bool, spawned: bool, ghost shots: seq<Shot>, ghost foes: seq<Foe>, ghost v: Melee)
      requires Ready() && state == Playing && InputOk(inp)
      modifies this`state, this`zombies, this`bullets, zombies, player`score, player`kills, player`hp, level
      ensures Valid()
      ensures v == Volley(shots, foes)
      ensures bullets == BulletsOf(v.kept) && zombies == ZombiesOf(v.foes)
      ensures |foes| == old(|zombies|) + (if spawned then 1 else 0)
      ensures (state == GameOver <==> died) && (state == Playing <==> !died)
      ensures var (ok, s1) := SpawnGate(old(level.State()), difficulty, old(|zombies|), now);
        var s2 := KillsRecorded(s1, v.counts, now);
        spawned == ok &&
        level.State() == (if died then s2 else Advance(s2, difficulty, now)) &&
        player.score == old(player.score) + v.score && player.kills == old(player.kills) + v.kills &&
        |zombies| == old(|zombies|) + (if ok then 1 else 0) - v.kills
      ensures died ==> player.hp == 0.0
    {
      died, spawned, shots, foes, v := Fight(inp, now, env);
      Conclude(died, now);
    }

    /** The end of a frame: a dead player ends the game; otherwise the
        scheduler advances. */
    method Conclude(died: bool, now: int)
      requires Ready() && state == Playing
      modifies this`state, level
      ensures Valid()
      ensures (state == GameOver <==> died) && (state == Playing <==> !died)
      ensures level.State() == if died then old(level.State()) else Advance(old(level.State()), difficulty, now)
    {
      if died {
        state := GameOver;
        return;
      }
      CensusAfterAdvance(level.State(), difficulty, |zombies|, now);
      level.Update(now);
    }

    /** The first passes of a frame: the player's input, the camera, the
        player's push-out, firing, and the bullets' move. */
    method Maneuver(inp: FrameInput, now: int, env: Env)
      requires Ready() && InputOk(inp)
      modifies this`bullets, bullets, camera`offsetX, camera`offsetY
      modifies player`x, player`y, player`rect, player`angle, player`currentWeapon, player`reloading
      modifies player`ammo, player`reloadStart, player`lastShotTime
      ensures Ready()
    {
      SteerPlayer(inp, env);
      FollowPlayer();
      PlayerVsObstacles();
      var _ := FireStep(inp, now, env);
      MoveBullets(now);
    }

    /** The remaining passes of a frame up to the scheduler's update: the
        spawn, the zombie AI, the bullets against obstacles and zombies,
        and the zombies against the player. */
    method Fight(inp: FrameInput, now: int, env: Env)
        returns (died: bool, spawned: bool, ghost shots: seq<Shot>, ghost foes: seq<Foe>, ghost v: Melee)
      requires Ready() && InputOk(inp)
      modifies level, this`zombies, this`bullets, zombies, player`score, player`kills, player`hp
      ensures Ready()
      ensures v == Volley(shots, foes)
      ensures bullets == BulletsOf(v.kept) && zombies == ZombiesOf(v.foes)
      ensures |foes| == old(|zombies|) + (if spawned then 1 else 0)
      ensures forall i :: 0 <= i < |foes| ==> foes[i].zombie in old(zombies) || fresh(foes[i].zombie)
      ensures var (ok, s1) := SpawnGate(old(level.State()), difficulty, old(|zombies|), now);
        spawned == ok && level.State() == KillsRecorded(s1, v.counts, now) &&
        player.score == old(player.score) + v.score && player.kills == old(player.kills) + v.kills &&
        |zombies| == old(|zombies|) + (if ok then 1 else 0) - v.kills
      ensures died ==> player.hp == 0.0
    {
      spawned := Gather(inp, now, env);
      shots, foes := ShotsOf(bullets), FoesOf(zombies);
      died, v := Clash(now);
    }

    /** The spawn, the zombie AI and the bullets against obstacles. */
    method Gather(inp: FrameInput, now: int, env: Env) returns (spawned: bool)
      requires Ready() && InputOk(inp)
      modifies level, this`zombies, this`bullets, zombies
      ensures Ready()
      ensures (spawned, level.State()) == SpawnGate(old(level.State()), difficulty, old(|zombies|), now)
      ensures |zombies| == old(|zombies|) + (if spawned then 1 else 0)
      ensures forall i :: 0 <= i < |zombies| ==> zombies[i] in old(zombies) || fresh(zombies[i])
    {
      spawned := SpawnStep(inp, now);
      Roam(env);
    }

    /** The zombies close in on the player, then the bullets meet the
        obstacles. */
    method Roam(env: Env)
      requires Ready()
      modifies this`bullets, zombies
      ensures Ready()
    {
      ZombieAI(env);
      BulletsVsObstacles();
    }

    /** The bullets against the zombies, then the zombies against the
        player. */
    method Clash(now: int) returns (died: bool, ghost v: Melee)
      requires Ready()
      modifies this`zombies, this`bullets, zombies, player`score, player`kills, player`hp, level
      ensures Ready()
      ensures v == Volley(old(ShotsOf(bullets)), old(FoesOf(zombies)))
      ensures bullets == BulletsOf(v.kept) && zombies == ZombiesOf(v.foes)
      ensures level.State() == KillsRecorded(old(level.State()), v.counts, now)
      ensures player.score == old(player.score) + v.score && player.kills == old(player.kills) + v.kills
      ensures |zombies| == old(|zombies|) - v.kills
      ensures died ==> player.hp == 0.0
    {
      v := BulletsVsZombies(now);
      assert zombies == ZombiesOf(FoesOf(zombies));
      died := ZombiesVsPlayer(now);
    }

    /** `_handle_key(key)`: Escape moves the state as `AfterKey` says; R
        starts a reload when the game is (then) running. */
    method HandleKey(k: Key, now: int)
      requires Valid()
      modifies this`state, player
      ensures Valid()
      ensures state == AfterKey(old(state), k)
      ensures state == Playing && k == ReloadKey ==>
        player.GunState() == BeginReload(old(player.GunState()), now) &&
        player.x == old(player.x) && player.y == old(player.y) && player.rect == old(player.rect) &&
        player.angle == old(player.angle) && player.hp == old(player.hp) &&
        player.score == old(player.score) && player.kills == old(player.kills)
      ensures !(state == Playing && k == ReloadKey) && player != null ==> unchanged(player)
    {
      state := AfterKey(state, k);
      if state == Playing && k == ReloadKey {
        if player != null {
          player.StartReload(now);
        }
      }
    }
  }
}
