/** The collision and combat passes of a frame, on value snapshots of the
    entities: bullets against obstacles, bullets against zombies, and
    zombies against the player. The game loop is proved to compute exactly
    these. */
module Combat {
  import opened Geometry
  import opened Settings
  import opened Players
  import opened Zombies
  import opened Bullets
  import opened Obstacles
  import opened Levels

  /** No element occurs twice: a sprite is in its group once. */
  predicate Distinct<T(==)>(s: seq<T>)
  {
    forall i, j :: 0 <= i < j < |s| ==> s[i] != s[j]
  }

  /** Appending an element not yet present keeps a sequence distinct. */
  lemma DistinctSnoc<T>(s: seq<T>, x: T)
    requires Distinct(s) && forall i :: 0 <= i < |s| ==> s[i] != x
    ensures Distinct(s + [x])
  {
  }

  // ---------------------------------------------------------------------
  // Bullets against obstacles

  /** A bullet as the passes see it: the object, its rect and its damage. */
  datatype Shot = Shot(bullet: Bullet, rect: Rect, damage: nat)

  /** Some obstacle's collision rect overlaps `r`. */
  predicate Blocked(r: Rect, obstacles: seq<Obstacle>)
  {
    exists i :: 0 <= i < |obstacles| && Overlaps(r, obstacles[i].collisionRect)
  }

  /** The bullets that survive the bullet–obstacle pass, in their order. */
  function Unblocked(shots: seq<Shot>, obstacles: seq<Obstacle>): (r: seq<Shot>)
    ensures |r| <= |shots|
    ensures forall i :: 0 <= i < |r| ==> r[i] in shots && !Blocked(r[i].rect, obstacles)
    ensures forall i :: 0 <= i < |shots| && !Blocked(shots[i].rect, obstacles) ==> shots[i] in r
    decreases |shots|
  {
    if shots == [] then []
    else
      var front := Unblocked(shots[..|shots| - 1], obstacles);
      var last := shots[|shots| - 1];
      assert forall i :: 0 <= i < |shots| - 1 ==> shots[..|shots| - 1][i] == shots[i];
      if Blocked(last.rect, obstacles) then front else front + [last]
  }

  /** With no obstacle nothing is removed. */
  lemma {:induction false} UnblockedWithoutObstacles(shots: seq<Shot>)
    ensures Unblocked(shots, []) == shots
    decreases |shots|
  {
    if shots != [] {
      UnblockedWithoutObstacles(shots[..|shots| - 1]);
      assert shots[..|shots| - 1] + [shots[|shots| - 1]] == shots;
    }
  }

  /** The bullets of the shots, in order. */
  function BulletsOf(ss: seq<Shot>): (r: seq<Bullet>)
    ensures |r| == |ss| && forall i :: 0 <= i < |ss| ==> r[i] == ss[i].bullet
  {
    seq(|ss|, i requires 0 <= i < |ss| => ss[i].bullet)
  }

  /** Removing blocked bullets keeps every remaining bullet once. */
  lemma {:induction false} UnblockedDistinct(shots: seq<Shot>, obstacles: seq<Obstacle>)
    requires Distinct(BulletsOf(shots))
    ensures Distinct(BulletsOf(Unblocked(shots, obstacles)))
    decreases |shots|
  {
    if shots != [] {
      var n := |shots| - 1;
      assert BulletsOf(shots[..n]) == BulletsOf(shots)[..n];
      UnblockedDistinct(shots[..n], obstacles);
      var front := Unblocked(shots[..n], obstacles);
      if !Blocked(shots[n].rect, obstacles) {
        LaterBulletNew(shots, n, front);
        DistinctSnoc(BulletsOf(front), shots[n].bullet);
        assert BulletsOf(front + [shots[n]]) == BulletsOf(front) + [shots[n].bullet];
      }
    }
  }

  /** Shots taken from the first `n` carry bullets other than the n-th's. */
  lemma LaterBulletNew(shots: seq<Shot>, n: nat, front: seq<Shot>)
    requires n < |shots| && Distinct(BulletsOf(shots))
    requires forall i :: 0 <= i < |front| ==> front[i] in shots[..n]
    ensures forall i :: 0 <= i < |front| ==> BulletsOf(front)[i] != shots[n].bullet
  {
    forall i | 0 <= i < |front|
      ensures BulletsOf(front)[i] != shots[n].bullet
    {
      var k :| 0 <= k < n && shots[..n][k] == front[i];
      assert BulletsOf(shots)[k] != BulletsOf(shots)[n];
    }
  }

  /** A zombie as the bullet pass sees it. */
  datatype Foe = Foe(zombie: Zombie, rect: Rect, hp: real)

  /** The index of the first foe whose rect overlaps `r`, or -1. */
  function FirstTouched(r: Rect, foes: seq<Foe>): (i: int)
    ensures -1 <= i < |foes|
    ensures i >= 0 ==> Overlaps(r, foes[i].rect)
    ensures forall j :: 0 <= j < |foes| && (i < 0 || j < i) ==> !Overlaps(r, foes[j].rect)
    decreases |foes|
  {
    if foes == [] then -1
    else if Overlaps(r, foes[0].rect) then 0
    else
      var k := FirstTouched(r, foes[1..]);
      assert forall j :: 1 <= j < |foes| ==> foes[j] == foes[1..][j - 1];
      if k < 0 then -1 else k + 1
  }

  /** The state of the bullet pass: the zombies still alive (with their hp),
      the bullets that hit nothing, the score and kills earned, the number
      of bullets that hit, and for each kill the number of zombies left
      after the removal, as handed to `on_zombie_killed`. */
  datatype Melee = Melee(foes: seq<Foe>, kept: seq<Shot>, score: int, kills: int, hits: int,
                         counts: seq<int>)

  /** `s` without its element at `j`. */
  function RemoveAt<T>(s: seq<T>, j: nat): (r: seq<T>)
    requires j < |s|
    ensures |r| == |s| - 1
    ensures forall k :: 0 <= k < j ==> r[k] == s[k]
    ensures forall k :: j <= k < |r| ==> r[k] == s[k + 1]
  {
    s[..j] + s[j + 1..]
  }

  /** One bullet of the pass: it damages the first zombie it overlaps (if
      any) and is then used up; a zombie whose hp falls to zero or below is
      removed and its score and one kill are credited. */
  function Strike(m: Melee, s: Shot): Melee
  {
    var j := FirstTouched(s.rect, m.foes);
    if j < 0 then m.(kept := m.kept + [s]) else HitFoe(m, j, s)
  }

  /** The bullet `s` hits foe `j`. */
  function HitFoe(m: Melee, j: nat, s: Shot): Melee
    requires j < |m.foes|
  {
    var f := m.foes[j];
    var hp := f.hp - s.damage as real;
    if hp <= 0.0 then
      var rest := RemoveAt(m.foes, j);
      m.(foes := rest, score := m.score + f.zombie.scoreValue, kills := m.kills + 1,
         hits := m.hits + 1, counts := m.counts + [|rest|])
    else
      m.(foes := m.foes[j := f.(hp := hp)], hits := m.hits + 1)
  }

  /** The bullet pass over `shots` in order. */
  function Volley(shots: seq<Shot>, foes: seq<Foe>): Melee
    decreases |shots|
  {
    if shots == [] then Melee(foes, [], 0, 0, 0, [])
    else Strike(Volley(shots[..|shots| - 1], foes), shots[|shots| - 1])
  }

  /** The pass over one more shot is one more `Strike`. */
  lemma VolleySnoc(shots: seq<Shot>, i: nat, foes: seq<Foe>)
    requires i < |shots|
    ensures Volley(shots[..i + 1], foes) == Strike(Volley(shots[..i], foes), shots[i])
  {
    assert shots[..i + 1][..i] == shots[..i];
  }

  /** The total score value of the foes. */
  function ScoreOf(foes: seq<Foe>): int
    decreases |foes|
  {
    if foes == [] then 0 else ScoreOf(foes[..|foes| - 1]) + foes[|foes| - 1].zombie.scoreValue
  }

  lemma {:induction false} ScoreOfRemoveAt(foes: seq<Foe>, j: nat)
    requires j < |foes|
    ensures ScoreOf(RemoveAt(foes, j)) == ScoreOf(foes) - foes[j].zombie.scoreValue
    decreases |foes|
  {
    var n := |foes| - 1;
    if j < n {
      assert RemoveAt(foes, j)[..n - 1] == RemoveAt(foes[..n], j);
      ScoreOfRemoveAt(foes[..n], j);
    } else {
      assert RemoveAt(foes, j) == foes[..n];
    }
  }

  lemma {:induction false} ScoreOfUpdate(foes: seq<Foe>, j: nat, hp: real)
    requires j < |foes|
    ensures ScoreOf(foes[j := foes[j].(hp := hp)]) == ScoreOf(foes)
    decreases |foes|
  {
    var n := |foes| - 1;
    var g := foes[j := foes[j].(hp := hp)];
    if j < n {
      assert g[..n] == foes[..n][j := foes[j].(hp := hp)];
      ScoreOfUpdate(foes[..n], j, hp);
    } else {
      assert g[..n] == foes[..n];
    }
  }

  /** The accounting of the bullet pass: every bullet either hits exactly
      one zombie or is kept, so it damages at most one; killed zombies are
      the ones removed, and the i-th kill reports the zombies left after the
      i-th removal. */
  lemma {:induction false} VolleyAccounting(shots: seq<Shot>, foes: seq<Foe>)
    ensures var v := Volley(shots, foes);
      v.hits + |v.kept| == |shots| && 0 <= v.kills <= v.hits &&
      |v.foes| + v.kills == |foes| && |v.counts| == v.kills &&
      (forall k :: 0 <= k < |v.counts| ==> v.counts[k] == |foes| - 1 - k)
    decreases |shots|
  {
    if shots != [] {
      var n := |shots| - 1;
      VolleyAccounting(shots[..n], foes);
    }
  }

  /** The score earned by the bullet pass is exactly the score values of
      the zombies it removed. */
  lemma {:induction false} VolleyScore(shots: seq<Shot>, foes: seq<Foe>)
    ensures Volley(shots, foes).score == ScoreOf(foes) - ScoreOf(Volley(shots, foes).foes)
    decreases |shots|
  {
    if shots != [] {
      var n := |shots| - 1;
      var m := Volley(shots[..n], foes);
      var s := shots[n];
      VolleyScore(shots[..n], foes);
      var j := FirstTouched(s.rect, m.foes);
      if j >= 0 {
        var hp := m.foes[j].hp - s.damage as real;
        if hp <= 0.0 {
          ScoreOfRemoveAt(m.foes, j);
        } else {
          ScoreOfUpdate(m.foes, j, hp);
        }
      }
    }
  }

  /** The bullets kept by the bullet pass are among its input, in order of
      the input: each one was tested at its turn and touched no zombie. */
  lemma {:induction false} VolleyKept(shots: seq<Shot>, foes: seq<Foe>)
    ensures forall i :: 0 <= i < |Volley(shots, foes).kept| ==> Volley(shots, foes).kept[i] in shots
    decreases |shots|
  {
    if shots != [] {
      var n := |shots| - 1;
      VolleyKept(shots[..n], foes);
      var m := Volley(shots[..n], foes);
      assert forall i :: 0 <= i < |m.kept| ==> m.kept[i] in shots[..n];
      assert forall x :: x in shots[..n] ==> x in shots;
    }
  }

  /** The zombies of the foes, in order. */
  function ZombiesOf(fs: seq<Foe>): (r: seq<Zombie>)
    ensures |r| == |fs| && forall i :: 0 <= i < |fs| ==> r[i] == fs[i].zombie
  {
    seq(|fs|, i requires 0 <= i < |fs| => fs[i].zombie)
  }

  /** One bullet removes or damages a zombie but never adds one: the
      zombies left are among those before, each still once. */
  lemma StrikeFoes(m: Melee, s: Shot)
    requires Distinct(ZombiesOf(m.foes))
    ensures Distinct(ZombiesOf(Strike(m, s).foes))
    ensures forall i :: 0 <= i < |Strike(m, s).foes| ==> Strike(m, s).foes[i].zombie in ZombiesOf(m.foes)
  {
    var j := FirstTouched(s.rect, m.foes);
    if j >= 0 {
      var zs := ZombiesOf(m.foes);
      var r := Strike(m, s).foes;
      if m.foes[j].hp - s.damage as real <= 0.0 {
        assert forall i :: 0 <= i < |r| ==> r[i].zombie == zs[if i < j then i else i + 1];
      } else {
        assert forall i :: 0 <= i < |r| ==> r[i].zombie == zs[i];
      }
    }
  }

  /** The bullet pass keeps every bullet and every zombie once, and the
      zombies it leaves are among those it started with. */
  lemma {:induction false} VolleyDistinct(shots: seq<Shot>, foes: seq<Foe>)
    requires Distinct(BulletsOf(shots)) && Distinct(ZombiesOf(foes))
    ensures Distinct(BulletsOf(Volley(shots, foes).kept))
    ensures Distinct(ZombiesOf(Volley(shots, foes).foes))
    ensures forall i :: 0 <= i < |Volley(shots, foes).foes| ==>
      Volley(shots, foes).foes[i].zombie in ZombiesOf(foes)
    decreases |shots|
  {
    if shots != [] {
      var n := |shots| - 1;
      assert BulletsOf(shots[..n]) == BulletsOf(shots)[..n];
      VolleyDistinct(shots[..n], foes);
      VolleyKept(shots[..n], foes);
      var m := Volley(shots[..n], foes);
      StrikeFoes(m, shots[n]);
      forall i | 0 <= i < |m.kept|
        ensures m.kept[i].bullet != shots[n].bullet
      {
        var k :| 0 <= k < n && shots[..n][k] == m.kept[i];
        assert BulletsOf(shots)[k] != BulletsOf(shots)[n];
      }
    }
  }

  /** A bullet overlapping no zombie at its turn changes nothing but is
      kept; zombies are only ever removed when their hp has fallen to zero
      or below. */
  lemma StrikeMissOrHit(m: Melee, s: Shot)
    ensures FirstTouched(s.rect, m.foes) < 0 <==> Strike(m, s) == m.(kept := m.kept + [s])
    ensures FirstTouched(s.rect, m.foes) >= 0 ==>
      var j := FirstTouched(s.rect, m.foes);
      Strike(m, s).kept == m.kept &&
      (m.foes[j].hp - s.damage as real <= 0.0 <==> |Strike(m, s).foes| == |m.foes| - 1)
  {
  }

  // ---------------------------------------------------------------------
  // Zombies against the player

  /** A zombie as the attack pass sees it. */
  datatype Assailant = Assailant(zombie: Zombie, rect: Rect, x: real, y: real, lastAttack: int)

  /** The player as the attack pass sees it. */
  datatype Target = Target(rect: Rect, x: real, y: real)

  /** The damage a zombie hit does: reduced by COVER_DAMAGE_REDUCTION when
      the player is behind cover. */
  function HitDamage(damage: real, covered: bool): (r: real)
    ensures covered ==> r == damage * 0.2
    ensures !covered ==> r == damage
  {
    if covered then damage * (1.0 - COVER_DAMAGE_REDUCTION) else damage
  }

  /** The state of the attack pass: the new `last_attack` of every zombie
      visited, the player's hp, whether the player died, and the damage of
      every landed hit in order. */
  datatype Assault = Assault(lasts: seq<int>, hp: real, dead: bool, hits: seq<real>)

  /** One zombie of the pass: once the player is dead nothing more happens
      (the loop has returned); a zombie touching the player asks its
      attack gate, and an allowed attack deals its (possibly covered)
      damage. */
  function Attack(a: Assault, z: Assailant, t: Target, obstacles: seq<Obstacle>, now: int): Assault
  {
    if a.dead || !Overlaps(z.rect, t.rect) then a.(lasts := a.lasts + [z.lastAttack])
    else
      var (ok, last) := AttackGate(z.lastAttack, now);
      if !ok then a.(lasts := a.lasts + [last])
      else
        var dmg := HitDamage(z.zombie.damage, BehindCover(t.x, t.y, z.x, z.y, obstacles));
        var (hp, dead) := Damage(a.hp, dmg);
        Assault(a.lasts + [last], hp, dead, a.hits + [dmg])
  }

  /** The attack pass over `zs` in order, starting from the player's hp. */
  function Onslaught(zs: seq<Assailant>, t: Target, hp: real, obstacles: seq<Obstacle>, now: int): Assault
    decreases |zs|
  {
    if zs == [] then Assault([], hp, false, [])
    else Attack(Onslaught(zs[..|zs| - 1], t, hp, obstacles, now), zs[|zs| - 1], t, obstacles, now)
  }

  /** Sum of a sequence of reals. */
  function Total(s: seq<real>): real
    decreases |s|
  {
    if s == [] then 0.0 else Total(s[..|s| - 1]) + s[|s| - 1]
  }

  /** Every zombie's `last_attack` after the attack pass is either kept
      or set to `now`, and it is set only for a zombie touching the player
      whose cooldown had elapsed; at most one hit per zombie lands. */
  lemma {:induction false} OnslaughtLasts(zs: seq<Assailant>, t: Target, hp: real,
                                          obstacles: seq<Obstacle>, now: int)
    ensures var a := Onslaught(zs, t, hp, obstacles, now);
      |a.lasts| == |zs| && |a.hits| <= |zs| &&
      (forall i :: 0 <= i < |zs| ==> a.lasts[i] == zs[i].lastAttack || a.lasts[i] == now) &&
      (forall i :: 0 <= i < |zs| && a.lasts[i] != zs[i].lastAttack ==>
         Overlaps(zs[i].rect, t.rect) && now - zs[i].lastAttack >= ATTACK_COOLDOWN)
    decreases |zs|
  {
    if zs != [] {
      var n := |zs| - 1;
      OnslaughtLasts(zs[..n], t, hp, obstacles, now);
      assert forall i :: 0 <= i < n ==> zs[..n][i] == zs[i];
    }
  }

  /** While the player lives its hp is the start hp minus the damage of the
      hits that landed; a death leaves hp 0. With a non-negative start hp
      and non-negative zombie damage, hp stays between 0 and the start. */
  lemma {:induction false} OnslaughtHp(zs: seq<Assailant>, t: Target, hp: real,
                                       obstacles: seq<Obstacle>, now: int)
    ensures var a := Onslaught(zs, t, hp, obstacles, now);
      (!a.dead ==> a.hp == hp - Total(a.hits)) && (a.dead ==> a.hp == 0.0)
    ensures (0.0 <= hp && forall i :: 0 <= i < |zs| ==> zs[i].zombie.damage >= 0.0) ==>
      0.0 <= Onslaught(zs, t, hp, obstacles, now).hp <= hp
    decreases |zs|
  {
    if zs != [] {
      var n := |zs| - 1;
      OnslaughtHp(zs[..n], t, hp, obstacles, now);
      var a := Onslaught(zs[..n], t, hp, obstacles, now);
      var z := zs[n];
      assert forall i :: 0 <= i < n ==> zs[..n][i] == zs[i];
      if !a.dead && Overlaps(z.rect, t.rect) && AttackGate(z.lastAttack, now).0 {
        var dmg := HitDamage(z.zombie.damage, BehindCover(t.x, t.y, z.x, z.y, obstacles));
        assert (a.hits + [dmg])[..|a.hits|] == a.hits;
        assert Total(a.hits + [dmg]) == Total(a.hits) + dmg;
      }
    }
  }

  /** Once the player has died at the i-th zombie, the rest of the pass
      only records the remaining zombies' unchanged `last_attack`: the
      loop's early return loses nothing. */
  lemma {:induction false} OnslaughtAfterDeath(zs: seq<Assailant>, i: nat, t: Target, hp: real,
                                               obstacles: seq<Obstacle>, now: int)
    requires i <= |zs| && Onslaught(zs[..i], t, hp, obstacles, now).dead
    ensures var a, b := Onslaught(zs[..i], t, hp, obstacles, now), Onslaught(zs, t, hp, obstacles, now);
      b.dead && b.hp == a.hp && b.hits == a.hits && |b.lasts| == |zs| &&
      b.lasts[..i] == a.lasts &&
      forall k :: i <= k < |zs| ==> b.lasts[k] == zs[k].lastAttack
    decreases |zs|
  {
    if |zs| > i {
      var n := |zs| - 1;
      assert zs[..n][..i] == zs[..i];
      OnslaughtAfterDeath(zs[..n], i, t, hp, obstacles, now);
      var a := Onslaught(zs[..n], t, hp, obstacles, now);
      AttackGuards(a, zs[n], t, obstacles, now);
      assert Onslaught(zs, t, hp, obstacles, now) == Attack(a, zs[n], t, obstacles, now);
    } else {
      assert zs[..i] == zs;
      OnslaughtLasts(zs, t, hp, obstacles, now);
    }
  }

  /** A zombie that does not touch the player, or is still cooling down,
      never hurts it; once the player is dead the rest of the pass changes
      nothing. */
  lemma AttackGuards(a: Assault, z: Assailant, t: Target, obstacles: seq<Obstacle>, now: int)
    ensures !Overlaps(z.rect, t.rect) || now - z.lastAttack < ATTACK_COOLDOWN || a.dead ==>
      var b := Attack(a, z, t, obstacles, now);
      b.hp == a.hp && b.dead == a.dead && b.hits == a.hits && b.lasts == a.lasts + [z.lastAttack]
    ensures !a.dead && Overlaps(z.rect, t.rect) && now - z.lastAttack >= ATTACK_COOLDOWN ==>
      var dmg := HitDamage(z.zombie.damage, BehindCover(t.x, t.y, z.x, z.y, obstacles));
      var b := Attack(a, z, t, obstacles, now);
      b.hits == a.hits + [dmg] && (b.hp, b.dead) == Damage(a.hp, dmg) && b.lasts == a.lasts + [now]
  {
  }

  // ---------------------------------------------------------------------
  // The scheduler's view of the kills

  /** `on_zombie_killed` for each reported count, in order. */
  function KillsRecorded(s: Waves, counts: seq<int>, now: int): Waves
    decreases |counts|
  {
    if counts == [] then s else KillRecorded(KillsRecorded(s, counts[..|counts| - 1], now), counts[|counts| - 1], now)
  }

  /** One more reported count is one more `on_zombie_killed`. */
  lemma KillsRecordedSnoc(s: Waves, counts: seq<int>, c: int, now: int)
    ensures KillsRecorded(s, counts + [c], now) == KillRecorded(KillsRecorded(s, counts, now), c, now)
  {
    assert (counts + [c])[..|counts|] == counts;
  }
}
