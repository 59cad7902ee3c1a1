/** What holds of a running session between frames: the scheduler's
    counters against the zombies alive, and the invariant of the session's
    objects. */
module Sessions {
  import opened Settings
  import opened Players
  import opened Zombies
  import opened Bullets
  import opened Levels
  import opened Cameras
  import opened Combat

  /** The zombies alive are exactly those spawned in the current wave and
      not killed yet, and a wave in its break has had all its zombies
      killed. */
  predicate Census(s: Waves, alive: int)
  {
    s.spawned - s.killed == alive && (s.between ==> s.killed >= s.toSpawn)
  }

  lemma CensusAfterSpawnCheck(s: Waves, d: Difficulty, alive: int, now: int)
    requires Consistent(s, d) && Census(s, alive)
    ensures var (ok, t) := SpawnGate(s, d, alive, now);
      Consistent(t, d) && Census(t, if ok then alive + 1 else alive)
  {
  }

  /** Kills reported, in order, with the counts left after each removal,
      keep the census; the level stays consistent. */
  lemma {:induction false} CensusAfterKills(s: Waves, d: Difficulty, alive: int, counts: seq<int>, now: int)
    requires Consistent(s, d) && Census(s, alive)
    requires |counts| <= alive
    requires forall k :: 0 <= k < |counts| ==> counts[k] == alive - 1 - k
    ensures Consistent(KillsRecorded(s, counts, now), d)
    ensures Census(KillsRecorded(s, counts, now), alive - |counts|)
    decreases |counts|
  {
    if counts != [] {
      var n := |counts| - 1;
      CensusAfterKills(s, d, alive, counts[..n], now);
      var t := KillsRecorded(s, counts[..n], now);
      ApplyKeepsConsistent(t, d, ZombieKilled(counts[n], now));
    }
  }

  lemma CensusAfterAdvance(s: Waves, d: Difficulty, alive: int, now: int)
    requires Consistent(s, d) && Census(s, alive) && alive >= 0
    ensures Consistent(Advance(s, d, now), d) && Census(Advance(s, d, now), alive)
  {
    ApplyKeepsConsistent(s, d, Tick(now));
  }

  /** The wave-complete test of `on_zombie_killed` gets the number of
      zombies left after the removal; under the census the wave completes
      exactly when the last zombie of a fully spawned wave dies, leaving no
      zombie at all: the allowance of one remaining zombie never decides. */
  lemma LastKillCompletesWave(s: Waves, d: Difficulty, alive: int, now: int)
    requires Consistent(s, d) && Census(s, alive) && alive >= 1
    ensures !s.between && !s.complete
    ensures KillRecorded(s, alive - 1, now).complete <==> alive == 1 && s.spawned == s.toSpawn
    ensures KillRecorded(s, alive - 1, now).complete <==>
            s.killed + 1 >= s.toSpawn && alive - 1 == 0
  {
  }

  /** The objects of a session exist and keep their invariants, the camera
      follows the player, every sprite is in its group once, no zombie heals
      the player, and the zombies alive match the scheduler's counters. */
  ghost predicate SessionOk(p: Player?, c: Camera?, l: LevelManager?,
                            zs: seq<Zombie>, bs: seq<Bullet>, d: Difficulty)
    reads p, c, l
  {
    p != null && c != null && l != null &&
    p.Valid() && p.HpInRange() && l.Valid() && l.difficulty == d &&
    c.target == p && c.InBox() &&
    Distinct(zs) && Distinct(bs) &&
    (forall i :: 0 <= i < |zs| ==> zs[i].damage >= 0.0) &&
    Census(l.State(), |zs|)
  }

}
