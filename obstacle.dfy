/** The obstacle field: obstacles and their inset collision rectangles,
    rejection-sampled placement, the line-of-sight cover test and the
    minimum-overlap push-out of an entity. */
module Obstacles {
  import opened Geometry
  import opened Settings
  import opened Choice

  /** The collision rectangle is the visual one shrunk by this much in width
      and in height. */
  const COLLISION_INSET: int := 6
  /** Placement gives up after this many candidates. */
  const MAX_ATTEMPTS: nat := OBSTACLE_COUNT * 20
  /** Obstacle centres are drawn this far inside the world. */
  const FIELD_MARGIN: int := 150
  /** No obstacle centre closer than this to the player's start. */
  const START_CLEARANCE: int := 200
  /** The player must be this close to an obstacle to hide behind it. */
  const COVER_PROXIMITY: int := 70
  /** An obstacle shields when its centre is closer than this to the line
      of sight. */
  const COVER_LINE_DIST: int := 40

  /** A placed obstacle: its type, integer centre, visual rect and
      collision rect. */
  datatype Obstacle = Obstacle(kind: ObstacleKind, x: int, y: int, rect: Rect, collisionRect: Rect)

  /** `Obstacle(x, y, type)`: the visual rect is the type's size centred on
      (x, y); the collision rect is `rect.inflate(-6, -6)`, three pixels in on
      every side and centred on the same point. */
  function MakeObstacle(k: ObstacleKind, x: int, y: int): (o: Obstacle)
    ensures o.kind == k && o.x == x && o.y == y
    ensures o.rect == CenteredAt(x, y, ObstacleTypeInfo(k).width, ObstacleTypeInfo(k).height)
    ensures o.collisionRect.w == o.rect.w - COLLISION_INSET
    ensures o.collisionRect.h == o.rect.h - COLLISION_INSET
  {
    var t := ObstacleTypeInfo(k);
    var r := CenteredAt(x, y, t.width, t.height);
    Obstacle(k, x, y, r, Inflate(r, -COLLISION_INSET, -COLLISION_INSET))
  }

  /** The collision rect lies three pixels inside the visual rect on every
      side, and both are centred on the obstacle's position. */
  lemma MakeObstacleGeometry(k: ObstacleKind, x: int, y: int)
    ensures var o := MakeObstacle(k, x, y);
      o.rect.CenterX() == x && o.rect.CenterY() == y &&
      o.collisionRect.x == o.rect.x + COLLISION_INSET / 2 &&
      o.collisionRect.y == o.rect.y + COLLISION_INSET / 2 &&
      o.collisionRect.CenterX() == x && o.collisionRect.CenterY() == y
  {
    var t := ObstacleTypeInfo(k);
    CenteredAtCentre(x, y, t.width, t.height);
    InflateKeepsCentre(CenteredAt(x, y, t.width, t.height), -COLLISION_INSET, -COLLISION_INSET);
  }

  // ---------------------------------------------------------------------
  // Placement

  /** One draw of the placement loop: the unit draw for the type and the
      `randint` coordinates. */
  datatype Candidate = Candidate(kindDraw: real, x: int, y: int)

  /** The draws the placement loop can receive: `random()` in [0, 1) and
      `randint(150, WORLD - 150)` on each axis. */
  predicate ValidCandidates(cands: seq<Candidate>)
  {
    forall i :: 0 <= i < |cands| ==>
      0.0 <= cands[i].kindDraw < 1.0 &&
      FIELD_MARGIN <= cands[i].x <= WORLD_WIDTH - FIELD_MARGIN &&
      FIELD_MARGIN <= cands[i].y <= WORLD_HEIGHT - FIELD_MARGIN
  }

  /** The relative weights of `OBSTACLE_KINDS`. */
  function KindWeights(): (ws: seq<nat>)
    ensures |ws| == |OBSTACLE_KINDS| && Sum(ws) == 100
    ensures forall i :: 0 <= i < |ws| ==> ws[i] == ObstacleTypeInfo(OBSTACLE_KINDS[i]).weight
  {
    var ws := [ObstacleTypeInfo(Barricade).weight, ObstacleTypeInfo(Car).weight,
               ObstacleTypeInfo(Crate).weight, ObstacleTypeInfo(ConcreteWall).weight,
               ObstacleTypeInfo(Sandbag).weight];
    assert ws[1..][1..][1..][1..][1..] == [];
    ws
  }

  /** The weighted type pick for the unit draw `u`. */
  function PickKind(u: real): ObstacleKind
    requires 0.0 <= u < 1.0
  {
    OBSTACLE_KINDS[Pick(KindWeights(), u * Sum(KindWeights()) as real)]
  }

  /** A candidate centre lies within the player-start clearance
      (`hypot(...) < 200`, compared on squares). */
  predicate NearStart(x: int, y: int, sx: real, sy: real)
  {
    Dist2(x as real, y as real, sx, sy) < (START_CLEARANCE * START_CLEARANCE) as real
  }

  /** A candidate centre lies closer than OBSTACLE_MIN_DIST to some placed
      obstacle (compared on squares). */
  predicate Crowded(x: int, y: int, placed: seq<Obstacle>)
  {
    exists i :: 0 <= i < |placed| &&
      Dist2(x as real, y as real, placed[i].x as real, placed[i].y as real) <
        (OBSTACLE_MIN_DIST * OBSTACLE_MIN_DIST) as real
  }

  /** One attempt of `generate_obstacles`: the candidate is rejected when
      near the start, then when crowded, then when its type has no image;
      otherwise it is appended. */
  function Attempt(placed: seq<Obstacle>, c: Candidate, sx: real, sy: real,
                   hasAsset: ObstacleKind -> bool): seq<Obstacle>
    requires 0.0 <= c.kindDraw < 1.0
  {
    var k := PickKind(c.kindDraw);
    if NearStart(c.x, c.y, sx, sy) then placed
    else if Crowded(c.x, c.y, placed) then placed
    else if !hasAsset(k) then placed
    else placed + [MakeObstacle(k, c.x, c.y)]
  }

  /** The placement loop from attempt number `attempts` on. */
  function GenerateFrom(cands: seq<Candidate>, attempts: nat, placed: seq<Obstacle>,
                        sx: real, sy: real, hasAsset: ObstacleKind -> bool): seq<Obstacle>
    requires ValidCandidates(cands) && |cands| >= MAX_ATTEMPTS
    decreases MAX_ATTEMPTS - attempts
  {
    if |placed| < OBSTACLE_COUNT && attempts < MAX_ATTEMPTS then
      GenerateFrom(cands, attempts + 1, Attempt(placed, cands[attempts], sx, sy, hasAsset),
                   sx, sy, hasAsset)
    else
      placed
  }

  /** `generate_obstacles(assets, start)` for the draws `cands`. */
  function Generate(cands: seq<Candidate>, sx: real, sy: real,
                    hasAsset: ObstacleKind -> bool): seq<Obstacle>
    requires ValidCandidates(cands) && |cands| >= MAX_ATTEMPTS
  {
    GenerateFrom(cands, 0, [], sx, sy, hasAsset)
  }

  /** What every placed obstacle satisfies: it was built from its own type
      and centre, the centre is inside the field margin and outside the start
      clearance, its type has an image, and any two centres are at least
      OBSTACLE_MIN_DIST apart; and there are at most OBSTACLE_COUNT of them. */
  predicate WellSpread(placed: seq<Obstacle>, sx: real, sy: real, hasAsset: ObstacleKind -> bool)
  {
    |placed| <= OBSTACLE_COUNT &&
    (forall i :: 0 <= i < |placed| ==>
       placed[i] == MakeObstacle(placed[i].kind, placed[i].x, placed[i].y) &&
       FIELD_MARGIN <= placed[i].x <= WORLD_WIDTH - FIELD_MARGIN &&
       FIELD_MARGIN <= placed[i].y <= WORLD_HEIGHT - FIELD_MARGIN &&
       !NearStart(placed[i].x, placed[i].y, sx, sy) && hasAsset(placed[i].kind)) &&
    (forall i, j :: 0 <= i < j < |placed| ==>
       Dist2(placed[i].x as real, placed[i].y as real, placed[j].x as real, placed[j].y as real) >=
         (OBSTACLE_MIN_DIST * OBSTACLE_MIN_DIST) as real)
  }

  lemma AttemptKeepsWellSpread(placed: seq<Obstacle>, c: Candidate, sx: real, sy: real,
                               hasAsset: ObstacleKind -> bool)
    requires 0.0 <= c.kindDraw < 1.0
    requires FIELD_MARGIN <= c.x <= WORLD_WIDTH - FIELD_MARGIN
    requires FIELD_MARGIN <= c.y <= WORLD_HEIGHT - FIELD_MARGIN
    requires WellSpread(placed, sx, sy, hasAsset) && |placed| < OBSTACLE_COUNT
    ensures WellSpread(Attempt(placed, c, sx, sy, hasAsset), sx, sy, hasAsset)
    ensures |placed| <= |Attempt(placed, c, sx, sy, hasAsset)| <= |placed| + 1
  {
    var next := Attempt(placed, c, sx, sy, hasAsset);
    if |next| > |placed| {
      var n := |placed|;
      forall i | 0 <= i < n
        ensures Dist2(next[i].x as real, next[i].y as real, next[n].x as real, next[n].y as real) >=
                  (OBSTACLE_MIN_DIST * OBSTACLE_MIN_DIST) as real
      {
        assert !(Dist2(c.x as real, c.y as real, placed[i].x as real, placed[i].y as real) <
                   (OBSTACLE_MIN_DIST * OBSTACLE_MIN_DIST) as real);
        DistSymmetric(c.x as real, c.y as real, placed[i].x as real, placed[i].y as real);
      }
    }
  }

  lemma DistSymmetric(x1: real, y1: real, x2: real, y2: real)
    ensures Dist2(x1, y1, x2, y2) == Dist2(x2, y2, x1, y1)
  {
  }

  lemma {:induction false} GenerateFromKeepsWellSpread(cands: seq<Candidate>, attempts: nat,
      placed: seq<Obstacle>, sx: real, sy: real, hasAsset: ObstacleKind -> bool)
    requires ValidCandidates(cands) && |cands| >= MAX_ATTEMPTS
    requires WellSpread(placed, sx, sy, hasAsset)
    ensures WellSpread(GenerateFrom(cands, attempts, placed, sx, sy, hasAsset), sx, sy, hasAsset)
    decreases MAX_ATTEMPTS - attempts
  {
    if |placed| < OBSTACLE_COUNT && attempts < MAX_ATTEMPTS {
      AttemptKeepsWellSpread(placed, cands[attempts], sx, sy, hasAsset);
      GenerateFromKeepsWellSpread(cands, attempts + 1,
        Attempt(placed, cands[attempts], sx, sy, hasAsset), sx, sy, hasAsset);
    }
  }

  /** Whatever the draws, at most OBSTACLE_COUNT obstacles are placed, each
      inside the field margin, outside the start clearance, with an image, and
      pairwise at least OBSTACLE_MIN_DIST apart (fewer than OBSTACLE_COUNT is
      a possible outcome, not an error). */
  lemma GenerateWellSpread(cands: seq<Candidate>, sx: real, sy: real, hasAsset: ObstacleKind -> bool)
    requires ValidCandidates(cands) && |cands| >= MAX_ATTEMPTS
    ensures WellSpread(Generate(cands, sx, sy, hasAsset), sx, sy, hasAsset)
  {
    GenerateFromKeepsWellSpread(cands, 0, [], sx, sy, hasAsset);
  }

  lemma {:induction false} GenerateFromReadsPrefix(c1: seq<Candidate>, c2: seq<Candidate>,
      attempts: nat, placed: seq<Obstacle>, sx: real, sy: real, hasAsset: ObstacleKind -> bool)
    requires ValidCandidates(c1) && |c1| >= MAX_ATTEMPTS
    requires ValidCandidates(c2) && |c2| >= MAX_ATTEMPTS
    requires c1[..MAX_ATTEMPTS] == c2[..MAX_ATTEMPTS]
    ensures GenerateFrom(c1, attempts, placed, sx, sy, hasAsset) ==
            GenerateFrom(c2, attempts, placed, sx, sy, hasAsset)
    decreases MAX_ATTEMPTS - attempts
  {
    if |placed| < OBSTACLE_COUNT && attempts < MAX_ATTEMPTS {
      assert c1[attempts] == c1[..MAX_ATTEMPTS][attempts] == c2[attempts];
      GenerateFromReadsPrefix(c1, c2, attempts + 1,
        Attempt(placed, c1[attempts], sx, sy, hasAsset), sx, sy, hasAsset);
    }
  }

  /** The loop makes at most `20 * OBSTACLE_COUNT` attempts: draws beyond
      that many never influence the result. */
  lemma GenerateUsesAtMostMaxAttempts(c1: seq<Candidate>, c2: seq<Candidate>, sx: real, sy: real,
                                      hasAsset: ObstacleKind -> bool)
    requires ValidCandidates(c1) && |c1| >= MAX_ATTEMPTS
    requires ValidCandidates(c2) && |c2| >= MAX_ATTEMPTS
    requires c1[..MAX_ATTEMPTS] == c2[..MAX_ATTEMPTS]
    ensures Generate(c1, sx, sy, hasAsset) == Generate(c2, sx, sy, hasAsset)
  {
    GenerateFromReadsPrefix(c1, c2, 0, [], sx, sy, hasAsset);
  }

  /** The inner `for ox, oy in placed` loop: whether some placed centre is
      closer than OBSTACLE_MIN_DIST, stopping at the first one. */
  method TooClose(x: int, y: int, placed: seq<Obstacle>) returns (close: bool)
    ensures close <==> Crowded(x, y, placed)
  {
    close := false;
    var i := 0;
    while i < |placed|
      invariant 0 <= i <= |placed|
      invariant forall j :: 0 <= j < i ==>
        Dist2(x as real, y as real, placed[j].x as real, placed[j].y as real) >=
          (OBSTACLE_MIN_DIST * OBSTACLE_MIN_DIST) as real
    {
      if Dist2(x as real, y as real, placed[i].x as real, placed[i].y as real) <
           (OBSTACLE_MIN_DIST * OBSTACLE_MIN_DIST) as real {
        close := true;
        break;
      }
      i := i + 1;
    }
  }

  /** `generate_obstacles(assets, start)`; `hasAsset` tells which obstacle
      types have an image. */
  method GenerateObstacles(cands: seq<Candidate>, sx: real, sy: real, hasAsset: ObstacleKind -> bool)
      returns (placed: seq<Obstacle>)
    requires ValidCandidates(cands) && |cands| >= MAX_ATTEMPTS
    ensures placed == Generate(cands, sx, sy, hasAsset)
    ensures WellSpread(placed, sx, sy, hasAsset)
  {
    placed := [];
    var attempts := 0;
    while |placed| < OBSTACLE_COUNT && attempts < MAX_ATTEMPTS
      invariant 0 <= attempts <= MAX_ATTEMPTS
      invariant GenerateFrom(cands, attempts, placed, sx, sy, hasAsset) == Generate(cands, sx, sy, hasAsset)
      decreases MAX_ATTEMPTS - attempts
    {
      var c := cands[attempts];
      ghost var next := Attempt(placed, c, sx, sy, hasAsset);
      attempts := attempts + 1;
      var k := PickKind(c.kindDraw);
      if Dist2(c.x as real, c.y as real, sx, sy) < (START_CLEARANCE * START_CLEARANCE) as real {
        continue;
      }
      var close := TooClose(c.x, c.y, placed);
      if close {
        continue;
      }
      if !hasAsset(k) {
        continue;
      }
      placed := placed + [MakeObstacle(k, c.x, c.y)];
    }
    GenerateWellSpread(cands, sx, sy, hasAsset);
  }

  // ---------------------------------------------------------------------
  // Cover

  /** The test of `check_player_behind_cover` for one obstacle, on squared
      distances: the obstacle is no farther from the zombie, nor from the
      player, than they are from each other, within COVER_PROXIMITY of the
      player, and strictly closer than COVER_LINE_DIST to the line of sight
      (`|cross| / dist < 40` written as `cross^2 < 40^2 * dist^2`). */
  predicate Shields(o: Obstacle, px: real, py: real, zx: real, zy: real)
  {
    var ox, oy := o.x as real, o.y as real;
    SquaredTest(Dist2(px, py, zx, zy), Dist2(ox, oy, zx, zy), Dist2(ox, oy, px, py),
                Cross(o, px, py, zx, zy))
  }

  /** The cross product of the sight line (zombie to player) with the
      vector from the zombie to the obstacle centre. */
  function Cross(o: Obstacle, px: real, py: real, zx: real, zy: real): real
  {
    (px - zx) * (zy - o.y as real) - (py - zy) * (zx - o.x as real)
  }

  /** The four comparisons of `Shields` on the squared sight distance `d2`,
      the squared obstacle distances `dz2` (to the zombie) and `dp2` (to the
      player) and the cross product. */
  predicate SquaredTest(d2: real, dz2: real, dp2: real, cross: real)
  {
    dz2 <= d2 && dp2 <= d2 && dp2 <= (COVER_PROXIMITY * COVER_PROXIMITY) as real &&
    cross * cross < (COVER_LINE_DIST * COVER_LINE_DIST) as real * d2
  }

  /** The player at (px, py) is behind cover from the zombie at (zx, zy):
      they are at least 1 apart and some obstacle shields. */
  predicate Covered(px: real, py: real, zx: real, zy: real, obstacles: seq<Obstacle>)
  {
    Dist2(px, py, zx, zy) >= 1.0 &&
    exists i :: 0 <= i < |obstacles| && Shields(obstacles[i], px, py, zx, zy)
  }

  /** The obstacle loop: the first obstacle that shields ends the search. */
  function FirstShield(obstacles: seq<Obstacle>, px: real, py: real, zx: real, zy: real): (r: bool)
    ensures r <==> exists i :: 0 <= i < |obstacles| && Shields(obstacles[i], px, py, zx, zy)
    decreases |obstacles|
  {
    if obstacles == [] then false
    else if Shields(obstacles[0], px, py, zx, zy) then true
    else
      var r := FirstShield(obstacles[1..], px, py, zx, zy);
      assert forall i :: 1 <= i < |obstacles| ==> obstacles[i] == obstacles[1..][i - 1];
      r
  }

  /** `check_player_behind_cover(player, obstacles, zombie_pos)`: false when
      the two are less than 1 apart, else whether some obstacle shields. */
  function BehindCover(px: real, py: real, zx: real, zy: real, obstacles: seq<Obstacle>): (r: bool)
    ensures r <==> Covered(px, py, zx, zy, obstacles)
    ensures Dist2(px, py, zx, zy) < 1.0 || obstacles == [] ==> !r
  {
    if Dist2(px, py, zx, zy) < 1.0 then false
    else FirstShield(obstacles, px, py, zx, zy)
  }

  /** `check_player_behind_cover` as the loop it is: the search stops at
      the first obstacle that shields. */
  method CheckBehindCover(px: real, py: real, zx: real, zy: real, obstacles: seq<Obstacle>)
      returns (covered: bool)
    ensures covered == BehindCover(px, py, zx, zy, obstacles)
  {
    if Dist2(px, py, zx, zy) < 1.0 {
      return false;
    }
    var i := 0;
    while i < |obstacles|
      invariant 0 <= i <= |obstacles|
      invariant forall j :: 0 <= j < i ==> !Shields(obstacles[j], px, py, zx, zy)
    {
      if Shields(obstacles[i], px, py, zx, zy) {
        return true;
      }
      i := i + 1;
    }
    return false;
  }

  /** `cross / dist < threshold` is `cross^2 < threshold^2 * dist^2` for a
      non-negative `cross` and a positive `dist`. */
  lemma {:induction false} RatioBySquares(cross: real, dist: real, threshold: real)
    requires cross >= 0.0 && dist > 0.0 && threshold >= 0.0
    ensures cross / dist < threshold <==> cross * cross < (threshold * threshold) * (dist * dist)
  {
    var q := cross / dist;
    var td := threshold * dist;
    assert q * dist == cross;
    if q < threshold {
      MulPositive(threshold - q, dist);
      assert cross < td;
    } else {
      MulPositive(dist, dist);
      assert (q - threshold) * dist >= 0.0 by {
        if q - threshold > 0.0 { MulPositive(q - threshold, dist); }
      }
      assert cross >= td;
    }
    CompareBySquares(cross, td);
    assert td * td == (threshold * threshold) * (dist * dist);
  }

  /** `SquaredTest` is the source's test on true distances: with `dist`,
      `dz`, `dp` the non-negative lengths whose squares are `d2`, `dz2`, `dp2`
      and `dist >= 1`, the four comparisons on lengths hold exactly when
      their squared forms do. */
  lemma {:induction false} SquaredTestIsLengthTest(d2: real, dz2: real, dp2: real, cross: real,
                                                    dist: real, dz: real, dp: real)
    requires dist >= 1.0 && dz >= 0.0 && dp >= 0.0
    requires dist * dist == d2 && dz * dz == dz2 && dp * dp == dp2
    ensures var absCross := if cross < 0.0 then -cross else cross;
      (dz <= dist && dp <= dist && dp <= COVER_PROXIMITY as real &&
       absCross / dist < COVER_LINE_DIST as real) <==> SquaredTest(d2, dz2, dp2, cross)
  {
    var absCross := if cross < 0.0 then -cross else cross;
    CompareBySquares(dz, dist);
    CompareBySquares(dp, dist);
    CompareBySquares(dp, COVER_PROXIMITY as real);
    RatioBySquares(absCross, dist, COVER_LINE_DIST as real);
    assert absCross * absCross == cross * cross;
  }

  /** `Shields` is the source's test of one obstacle on true distances
      (`math.hypot` lengths `dist`, `dz`, `dp`, with `dist >= 1` as the
      caller guarantees). */
  lemma ShieldsIsSourceTest(o: Obstacle, px: real, py: real, zx: real, zy: real,
                            dist: real, dz: real, dp: real)
    requires dist >= 1.0 && dz >= 0.0 && dp >= 0.0
    requires dist * dist == Dist2(px, py, zx, zy)
    requires dz * dz == Dist2(o.x as real, o.y as real, zx, zy)
    requires dp * dp == Dist2(o.x as real, o.y as real, px, py)
    ensures var cross := Cross(o, px, py, zx, zy);
      var absCross := if cross < 0.0 then -cross else cross;
      (dz <= dist && dp <= dist && dp <= COVER_PROXIMITY as real &&
       absCross / dist < COVER_LINE_DIST as real) <==> Shields(o, px, py, zx, zy)
  {
    SquaredTestIsLengthTest(Dist2(px, py, zx, zy), Dist2(o.x as real, o.y as real, zx, zy),
                            Dist2(o.x as real, o.y as real, px, py), Cross(o, px, py, zx, zy),
                            dist, dz, dp);
  }

  /** Example (a sanity check beside `ShieldsIsSourceTest`, no extra
      guarantee): a zombie at (0, 0) and the player at (100, 0); an obstacle
      at (50, 0) gives cover, the same obstacle at (50, 100) does not. */
  lemma CoverExamples(k: ObstacleKind)
    ensures BehindCover(100.0, 0.0, 0.0, 0.0, [MakeObstacle(k, 50, 0)])
    ensures !BehindCover(100.0, 0.0, 0.0, 0.0, [MakeObstacle(k, 50, 100)])
  {
    var near, far := MakeObstacle(k, 50, 0), MakeObstacle(k, 50, 100);
    assert near.x == 50 && near.y == 0 && far.x == 50 && far.y == 100;
    assert Dist2(100.0, 0.0, 0.0, 0.0) == 10000.0;
    assert Dist2(50.0, 0.0, 0.0, 0.0) == 2500.0 && Dist2(50.0, 0.0, 100.0, 0.0) == 2500.0;
    assert Shields(near, 100.0, 0.0, 0.0, 0.0);
    assert Dist2(50.0, 100.0, 100.0, 0.0) == 12500.0;
    assert !Shields(far, 100.0, 0.0, 0.0, 0.0);
    assert [far][0] == far;
  }

  // ---------------------------------------------------------------------
  // Push-out

  function Min4(a: int, b: int, c: int, d: int): (m: int)
    ensures m <= a && m <= b && m <= c && m <= d
    ensures m == a || m == b || m == c || m == d
  {
    var ab := if a <= b then a else b;
    var cd := if c <= d then c else d;
    if ab <= cd then ab else cd
  }

  /** An entity at position (x, y) with rect `r`, and whether it has been
      pushed by some obstacle. */
  datatype Body = Body(x: real, y: real, rect: Rect, collided: bool)

  /** The push of one overlapping obstacle with collision rect `c`: along the
      axis of the smallest of the four overlap depths, by that depth, away
      from the obstacle (ties: left, right, top, bottom), then the rect is
      re-centred on the truncated position. */
  function PushOut(b: Body, c: Rect): Body
  {
    var r := b.rect;
    var left, right := r.Right() - c.x, c.Right() - r.x;
    var top, bottom := r.Bottom() - c.y, c.Bottom() - r.y;
    var m := Min4(left, right, top, bottom);
    var (x, y) :=
      if m == left then (b.x - left as real, b.y)
      else if m == right then (b.x + right as real, b.y)
      else if m == top then (b.x, b.y - top as real)
      else (b.x, b.y + bottom as real);
    Body(x, y, CenteredAt(Trunc(x), Trunc(y), r.w, r.h), true)
  }

  /** The push moves the position along one axis only, by exactly the
      smallest overlap depth (all four are positive when the rects overlap),
      and keeps the rect's size. */
  lemma PushOutMinimal(b: Body, c: Rect)
    requires Overlaps(b.rect, c)
    ensures var r := b.rect;
      var m := Min4(r.Right() - c.x, c.Right() - r.x, r.Bottom() - c.y, c.Bottom() - r.y);
      var p := PushOut(b, c);
      m > 0 && p.collided && p.rect.w == r.w && p.rect.h == r.h &&
      ((p.y == b.y && (p.x == b.x - m as real || p.x == b.x + m as real)) ||
       (p.x == b.x && (p.y == b.y - m as real || p.y == b.y + m as real)))
  {
  }

  /** Truncation commutes with the push, which is by a whole number. */
  predicate ShiftSafe(v: real, k: int)
  {
    v == Trunc(v) as real || (v >= 0.0 && v + k as real >= 0.0) || (v <= 0.0 && v + k as real <= 0.0)
  }

  /** After the push the entity no longer overlaps that obstacle, provided
      its rect was centred on its truncated position and the push does not
      carry a fractional coordinate across 0 (it never does for a whole
      coordinate, or anywhere inside the world). */
  lemma PushOutSeparates(b: Body, c: Rect)
    requires Overlaps(b.rect, c)
    requires b.rect == CenteredAt(Trunc(b.x), Trunc(b.y), b.rect.w, b.rect.h)
    requires var r := b.rect;
      ShiftSafe(b.x, -(r.Right() - c.x)) && ShiftSafe(b.x, c.Right() - r.x) &&
      ShiftSafe(b.y, -(r.Bottom() - c.y)) && ShiftSafe(b.y, c.Bottom() - r.y)
    ensures !Overlaps(PushOut(b, c).rect, c)
  {
    var r := b.rect;
    var left, right := r.Right() - c.x, c.Right() - r.x;
    var top, bottom := r.Bottom() - c.y, c.Bottom() - r.y;
    var m := Min4(left, right, top, bottom);
    if m == left {
      TruncShift(b.x, -left);
    } else if m == right {
      TruncShift(b.x, right);
    } else if m == top {
      TruncShift(b.y, -top);
    } else {
      TruncShift(b.y, bottom);
    }
  }

  /** Example (a sanity check beside `PushOutSeparates`, no extra
      guarantee): an entity box [0, 0, 10, 10] centred on (5, 5) against the collision
      rect [5, 5, 10, 10] is pushed left by 5, the smallest depth, and then
      no longer overlaps it. */
  lemma PushOutExample()
    ensures var p := PushOut(Body(5.0, 5.0, Rect(0, 0, 10, 10), false), Rect(5, 5, 10, 10));
      p.x == 0.0 && p.y == 5.0 && p.rect == Rect(-5, 0, 10, 10) &&
      !Overlaps(p.rect, Rect(5, 5, 10, 10))
  {
    var b := Body(5.0, 5.0, Rect(0, 0, 10, 10), false);
    var c := Rect(5, 5, 10, 10);
    assert Min4(5, 15, 5, 15) == 5;
    assert Trunc(0.0) == 0 && Trunc(5.0) == 5;
    assert PushOut(b, c) == Body(0.0, 5.0, CenteredAt(0, 5, 10, 10), true);
  }

  /** The turn of one obstacle in `resolve_entity_obstacle_collision`. */
  function ResolveStep(b: Body, o: Obstacle): Body
  {
    if Overlaps(b.rect, o.collisionRect) then PushOut(b, o.collisionRect) else b
  }

  /** The state after the turns of all of `obstacles`, in order. */
  function ResolveAll(b: Body, obstacles: seq<Obstacle>): Body
    decreases |obstacles|
  {
    if obstacles == [] then b
    else ResolveStep(ResolveAll(b, obstacles[..|obstacles| - 1]), obstacles[|obstacles| - 1])
  }

  /** The obstacle at index `i` overlaps the entity at its turn. */
  predicate HitAt(b: Body, obstacles: seq<Obstacle>, i: nat)
    requires i < |obstacles|
  {
    Overlaps(ResolveAll(b, obstacles[..i]).rect, obstacles[i].collisionRect)
  }

  /** The result reports a collision exactly when some obstacle's collision
      rect overlapped the entity's rect at that obstacle's turn (or the flag
      was set on entry); with no collision nothing moves. */
  lemma {:induction false} ResolveAllCollided(b: Body, obstacles: seq<Obstacle>)
    ensures ResolveAll(b, obstacles).collided <==>
      b.collided || exists i :: 0 <= i < |obstacles| && HitAt(b, obstacles, i)
    ensures !ResolveAll(b, obstacles).collided ==> ResolveAll(b, obstacles) == b
    decreases |obstacles|
  {
    if obstacles != [] {
      var n := |obstacles| - 1;
      var front := obstacles[..n];
      var pre := ResolveAll(b, front);
      var last := obstacles[n];
      assert ResolveAll(b, obstacles) == ResolveStep(pre, last);
      ResolveAllCollided(b, front);
      forall i | 0 <= i < n
        ensures HitAt(b, obstacles, i) <==> HitAt(b, front, i)
      {
        assert front[..i] == obstacles[..i];
      }
      assert HitAt(b, obstacles, n) <==> Overlaps(pre.rect, last.collisionRect);
    }
  }

  /** `resolve_entity_obstacle_collision(entity, obstacles)` on the entity's
      position and rect: returns the new position and rect, and whether a
      collision was resolved. */
  method ResolveCollision(x0: real, y0: real, rect0: Rect, obstacles: seq<Obstacle>)
      returns (x: real, y: real, rect: Rect, collided: bool)
    ensures Body(x, y, rect, collided) == ResolveAll(Body(x0, y0, rect0, false), obstacles)
    ensures !collided ==> x == x0 && y == y0 && rect == rect0
  {
    x, y, rect, collided := x0, y0, rect0, false;
    for i := 0 to |obstacles|
      invariant Body(x, y, rect, collided) == ResolveAll(Body(x0, y0, rect0, false), obstacles[..i])
    {
      assert obstacles[..i + 1][..i] == obstacles[..i];
      var c := obstacles[i].collisionRect;
      if Overlaps(rect, c) {
        collided := true;
        var left, right := rect.Right() - c.x, c.Right() - rect.x;
        var top, bottom := rect.Bottom() - c.y, c.Bottom() - rect.y;
        var m := Min4(left, right, top, bottom);
        if m == left {
          x := x - left as real;
        } else if m == right {
          x := x + right as real;
        } else if m == top {
          y := y - top as real;
        } else {
          y := y + bottom as real;
        }
        rect := CenteredAt(Trunc(x), Trunc(y), rect.w, rect.h);
      }
    }
    assert obstacles[..|obstacles|] == obstacles;
    ResolveAllCollided(Body(x0, y0, rect0, false), obstacles);
  }
}
