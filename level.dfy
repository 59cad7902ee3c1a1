/** The wave scheduler: a clock-driven state machine that announces a wave,
    releases its zombies one by one, notices when the wave is cleared and
    starts the next one after a break. */
module Levels {
  import opened Settings

  /** Milliseconds during which a new wave is announced and nothing spawns. */
  const ANNOUNCE_DURATION: int := 2000
  /** Milliseconds of break between a cleared wave and the next one. */
  const BETWEEN_WAVE_DURATION: int := 3000

  /** The fields of `LevelManager` other than the difficulty. */
  datatype Waves = Waves(
    wave: int,
    toSpawn: int,
    spawned: int,
    killed: int,
    active: bool,
    complete: bool,
    between: bool,
    announceTime: int,
    lastSpawnTime: int,
    betweenStart: int)

  /** Number of zombies of wave number `wave`. */
  function WaveSize(d: Difficulty, wave: int): int
  {
    Profile(d).zombiesPerWaveBase + (wave - 1) * Profile(d).waveGrowth
  }

  /** `_start_next_wave`. */
  function NextWave(s: Waves, d: Difficulty, now: int): Waves
  {
    s.(wave := s.wave + 1,
       toSpawn := WaveSize(d, s.wave + 1),
       spawned := 0, killed := 0,
       active := true, complete := false, between := false,
       announceTime := now)
  }

  /** `__init__`: wave 0, between waves since `now`, then the first wave is
      started at once. */
  function Initial(d: Difficulty, now: int): Waves
  {
    NextWave(Waves(0, 0, 0, 0, false, false, true, 0, 0, now), d, now)
  }

  /** `should_spawn(count)`: the verdict and the new state. */
  function SpawnGate(s: Waves, d: Difficulty, count: int, now: int): (bool, Waves)
  {
    if !s.active || s.between then (false, s)
    else if now - s.announceTime < ANNOUNCE_DURATION then (false, s)
    else if now - s.lastSpawnTime < Profile(d).spawnInterval then (false, s)
    else if s.spawned < s.toSpawn && count < Profile(d).maxZombies then
      (true, s.(lastSpawnTime := now, spawned := s.spawned + 1))
    else (false, s)
  }

  /** `on_zombie_killed(count)`, `count` being the zombies still alive. */
  function KillRecorded(s: Waves, count: int, now: int): Waves
  {
    var s1 := s.(killed := s.killed + 1);
    if s1.killed >= s1.toSpawn && count <= 1 then
      s1.(active := false, complete := true, between := true, betweenStart := now)
    else
      s1
  }

  /** `update`: the break after a cleared wave ends and the next wave starts. */
  function Advance(s: Waves, d: Difficulty, now: int): Waves
  {
    if s.between && s.complete && now - s.betweenStart >= BETWEEN_WAVE_DURATION then
      NextWave(s, d, now)
    else
      s
  }

  /** `is_announcing`. */
  predicate Announcing(s: Waves, now: int)
  {
    s.active && now - s.announceTime < ANNOUNCE_DURATION
  }

  /** `get_zombies_remaining`: `max(0, to_spawn - killed)`. */
  function Remaining(s: Waves): (n: int)
    ensures n >= 0
    ensures n == 0 <==> s.killed >= s.toSpawn
    ensures s.killed >= 0 && s.toSpawn >= 0 ==> n <= s.toSpawn
    ensures n > 0 ==> n == s.toSpawn - s.killed
  {
    if s.toSpawn - s.killed > 0 then s.toSpawn - s.killed else 0
  }

  /** The relations between the fields that every reachable state keeps:
      the wave is numbered from 1 and has its difficulty's size, the spawn
      counter never passes that size, and the three phase flags move
      together (a wave is either running, or cleared and in its break). */
  predicate Consistent(s: Waves, d: Difficulty)
  {
    s.wave >= 1 && s.toSpawn == WaveSize(d, s.wave) &&
    0 <= s.spawned <= s.toSpawn && s.killed >= 0 &&
    s.active == !s.between && s.complete == s.between
  }

  /** A new manager is in wave 1 with the base wave size, no zombie spawned or
      killed, the wave running and its announcement starting `now`. */
  lemma InitialIsFirstWave(d: Difficulty, now: int)
    ensures var s := Initial(d, now);
      s.wave == 1 && s.toSpawn == Profile(d).zombiesPerWaveBase &&
      s.spawned == 0 && s.killed == 0 && s.active && !s.complete && !s.between &&
      s.announceTime == now && s.lastSpawnTime == 0 && Announcing(s, now) &&
      Consistent(s, d)
  {
  }

  /** Starting a wave numbers it one higher, sizes it as
      `base + (wave - 1) * growth`, clears both counters, makes it active and
      not complete, ends the break and stamps the announcement; the spawn and
      break clocks are kept. */
  lemma NextWaveEffect(s: Waves, d: Difficulty, now: int)
    requires s.wave >= 0
    ensures var t := NextWave(s, d, now);
      t.wave == s.wave + 1 &&
      t.toSpawn == Profile(d).zombiesPerWaveBase + s.wave * Profile(d).waveGrowth &&
      t.spawned == 0 && t.killed == 0 && t.active && !t.complete && !t.between &&
      t.announceTime == now && t.lastSpawnTime == s.lastSpawnTime &&
      t.betweenStart == s.betweenStart && Consistent(t, d)
  {
  }

  /** The three refusals that come before the counters are looked at: an
      inactive wave or a break, the announcement, and the spawn interval. */
  lemma SpawnGateRefusals(s: Waves, d: Difficulty, count: int, now: int)
    ensures !s.active || s.between ==> SpawnGate(s, d, count, now) == (false, s)
    ensures now - s.announceTime < ANNOUNCE_DURATION ==> SpawnGate(s, d, count, now) == (false, s)
    ensures now - s.lastSpawnTime < Profile(d).spawnInterval ==> SpawnGate(s, d, count, now) == (false, s)
  {
  }

  /** A spawn is granted exactly when all gates are open, which includes a
      zombie of the wave still to come and room under `max_zombies`; a grant
      advances only the spawn counter and the spawn clock, a refusal changes
      nothing. */
  lemma SpawnGateExact(s: Waves, d: Difficulty, count: int, now: int)
    ensures var (ok, t) := SpawnGate(s, d, count, now);
      (ok <==> s.active && !s.between && now - s.announceTime >= ANNOUNCE_DURATION &&
               now - s.lastSpawnTime >= Profile(d).spawnInterval &&
               s.spawned < s.toSpawn && count < Profile(d).maxZombies) &&
      (ok ==> t == s.(spawned := s.spawned + 1, lastSpawnTime := now) &&
              t.spawned <= t.toSpawn && count + 1 <= Profile(d).maxZombies) &&
      (!ok ==> t == s)
  {
  }

  /** Every kill is counted; the wave completes, entering the break stamped
      `now`, exactly when the kills reach the wave size and at most one zombie
      is alive. Otherwise only the kill counter moves. */
  lemma KillRecordedEffect(s: Waves, count: int, now: int)
    ensures var t := KillRecorded(s, count, now);
      var done := s.killed + 1 >= s.toSpawn && count <= 1;
      t.killed == s.killed + 1 &&
      (done ==> t == s.(killed := s.killed + 1, active := false, complete := true,
                        between := true, betweenStart := now)) &&
      (!done ==> t == s.(killed := s.killed + 1))
  {
  }

  /** `update` starts the next wave only after the full break that follows a
      cleared wave; otherwise it changes nothing. */
  lemma AdvanceEffect(s: Waves, d: Difficulty, now: int)
    ensures var go := s.between && s.complete && now - s.betweenStart >= BETWEEN_WAVE_DURATION;
      (go ==> Advance(s, d, now) == NextWave(s, d, now)) &&
      (!go ==> Advance(s, d, now) == s)
  {
  }

  /** The calls the game makes on the scheduler. */
  datatype LevelEvent =
    | SpawnCheck(count: int, now: int)
    | ZombieKilled(count: int, now: int)
    | Tick(now: int)

  function Apply(s: Waves, d: Difficulty, e: LevelEvent): Waves
  {
    match e
    case SpawnCheck(count, now) => SpawnGate(s, d, count, now).1
    case ZombieKilled(count, now) => KillRecorded(s, count, now)
    case Tick(now) => Advance(s, d, now)
  }

  function ApplyAll(s: Waves, d: Difficulty, es: seq<LevelEvent>): Waves
    decreases |es|
  {
    if es == [] then s else ApplyAll(Apply(s, d, es[0]), d, es[1..])
  }

  /** Each call keeps the state consistent and never lowers the wave number,
      raising it by at most one. */
  lemma ApplyKeepsConsistent(s: Waves, d: Difficulty, e: LevelEvent)
    requires Consistent(s, d)
    ensures Consistent(Apply(s, d, e), d)
    ensures s.wave <= Apply(s, d, e).wave <= s.wave + 1
  {
  }

  /** Whatever the order of spawn checks, kills and ticks, the state stays
      consistent (in particular no wave spawns more than its size) and the
      wave number never decreases. */
  lemma {:induction false} ApplyAllKeepsConsistent(s: Waves, d: Difficulty, es: seq<LevelEvent>)
    requires Consistent(s, d)
    ensures Consistent(ApplyAll(s, d, es), d)
    ensures s.wave <= ApplyAll(s, d, es).wave <= s.wave + |es|
    decreases |es|
  {
    if es != [] {
      ApplyKeepsConsistent(s, d, es[0]);
      ApplyAllKeepsConsistent(Apply(s, d, es[0]), d, es[1..]);
    }
  }

  /** `LevelManager`. */
  class LevelManager {
    const difficulty: Difficulty
    var wave: int
    var zombiesSpawned: int
    var zombiesToSpawn: int
    var zombiesKilled: int
    var waveActive: bool
    var waveComplete: bool
    var waveAnnounceTime: int
    var lastSpawnTime: int
    var betweenWaves: bool
    var betweenWaveStart: int

    function State(): Waves
      reads this
    {
      Waves(wave, zombiesToSpawn, zombiesSpawned, zombiesKilled, waveActive, waveComplete,
            betweenWaves, waveAnnounceTime, lastSpawnTime, betweenWaveStart)
    }

    ghost predicate Valid()
      reads this
    {
      Consistent(State(), difficulty)
    }

    constructor (d: Difficulty, now: int)
      ensures difficulty == d && State() == Initial(d, now) && Valid()
    {
      difficulty := d;
      wave := 0;
      zombiesSpawned, zombiesToSpawn, zombiesKilled := 0, 0, 0;
      waveActive, waveComplete := false, false;
      waveAnnounceTime := 0;
      lastSpawnTime := 0;
      betweenWaves := true;
      betweenWaveStart := now;
      new;
      StartNextWave(now);
    }

    method StartNextWave(now: int)
      modifies this
      ensures State() == NextWave(old(State()), difficulty, now)
    {
      wave := wave + 1;
      zombiesToSpawn := Profile(difficulty).zombiesPerWaveBase + (wave - 1) * Profile(difficulty).waveGrowth;
      zombiesSpawned := 0;
      zombiesKilled := 0;
      waveActive := true;
      waveComplete := false;
      waveAnnounceTime := now;
      betweenWaves := false;
    }

    method ShouldSpawn(count: int, now: int) returns (ok: bool)
      requires Valid()
      modifies this
      ensures Valid()
      ensures (ok, State()) == SpawnGate(old(State()), difficulty, count, now)
    {
      if !waveActive || betweenWaves {
        return false;
      }
      if now - waveAnnounceTime < ANNOUNCE_DURATION {
        return false;
      }
      if now - lastSpawnTime < Profile(difficulty).spawnInterval {
        return false;
      }
      if zombiesSpawned < zombiesToSpawn && count < Profile(difficulty).maxZombies {
        lastSpawnTime := now;
        zombiesSpawned := zombiesSpawned + 1;
        return true;
      }
      return false;
    }

    method OnZombieKilled(count: int, now: int)
      requires Valid()
      modifies this
      ensures Valid()
      ensures State() == KillRecorded(old(State()), count, now)
    {
      zombiesKilled := zombiesKilled + 1;
      if zombiesKilled >= zombiesToSpawn && count <= 1 {
        waveActive := false;
        waveComplete := true;
        betweenWaves := true;
        betweenWaveStart := now;
      }
    }

    method Update(now: int)
      requires Valid()
      modifies this
      ensures Valid()
      ensures State() == Advance(old(State()), difficulty, now)
    {
      if betweenWaves && waveComplete {
        if now - betweenWaveStart >= BETWEEN_WAVE_DURATION {
          StartNextWave(now);
        }
      }
    }

    method IsAnnouncing(now: int) returns (r: bool)
      ensures r == Announcing(State(), now)
    {
      r := waveActive && now - waveAnnounceTime < ANNOUNCE_DURATION;
    }

    method ZombiesRemaining() returns (n: int)
      ensures n >= 0 && n == Remaining(State())
    {
      n := if zombiesToSpawn - zombiesKilled > 0 then zombiesToSpawn - zombiesKilled else 0;
    }
  }
}
