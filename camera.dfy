/** The camera: an offset that eases towards the followed player's centre,
    kept inside the world, and the world/screen coordinate conversions. */
module Cameras {
  import opened Geometry
  import opened Settings
  import opened Players

  /** The largest offsets that still keep the screen inside the world. */
  const MAX_OFFSET_X: int := WORLD_WIDTH - SCREEN_WIDTH
  const MAX_OFFSET_Y: int := WORLD_HEIGHT - SCREEN_HEIGHT

  /** The fraction of the remaining distance covered per update. */
  const LERP: real := 0.1

  /** The offset that centres the point (cx, cy) on the screen, clamped so
      that the screen stays inside the world. */
  function TargetOffset(cx: int, cy: int): (t: (int, int))
    ensures 0 <= t.0 <= MAX_OFFSET_X && 0 <= t.1 <= MAX_OFFSET_Y
    ensures 0 <= cx - SCREEN_WIDTH / 2 <= MAX_OFFSET_X ==> t.0 == cx - SCREEN_WIDTH / 2
    ensures 0 <= cy - SCREEN_HEIGHT / 2 <= MAX_OFFSET_Y ==> t.1 == cy - SCREEN_HEIGHT / 2
    ensures cx - SCREEN_WIDTH / 2 < 0 ==> t.0 == 0
    ensures cx - SCREEN_WIDTH / 2 > MAX_OFFSET_X ==> t.0 == MAX_OFFSET_X
  {
    (ClampInt(cx - SCREEN_WIDTH / 2, 0, MAX_OFFSET_X), ClampInt(cy - SCREEN_HEIGHT / 2, 0, MAX_OFFSET_Y))
  }

  /** One easing step of `offset` towards `target`. */
  function Approach(offset: real, target: real): real
  {
    offset + (target - offset) * LERP
  }

  /** Each step removes one tenth of the remaining distance: the new offset
      lies between the old one and the target, a target already reached is
      kept, and an offset that starts in an interval containing the target
      stays in it. */
  lemma ApproachContracts(offset: real, target: real, lo: real, hi: real)
    ensures target - Approach(offset, target) == (target - offset) * 0.9
    ensures offset <= target ==> offset <= Approach(offset, target) <= target
    ensures target <= offset ==> target <= Approach(offset, target) <= offset
    ensures Approach(target, target) == target
    ensures lo <= offset <= hi && lo <= target <= hi ==> lo <= Approach(offset, target) <= hi
  {
  }

  class Camera {
    var offsetX: real
    var offsetY: real
    var target: Player?

    /** The offset is inside the clamp box. */
    ghost predicate InBox()
      reads this
    {
      0.0 <= offsetX <= MAX_OFFSET_X as real && 0.0 <= offsetY <= MAX_OFFSET_Y as real
    }

    /** A camera at offset (0, 0) following nothing. */
    constructor ()
      ensures offsetX == 0.0 && offsetY == 0.0 && target == null && InBox()
    {
      offsetX, offsetY := 0.0, 0.0;
      target := null;
    }

    /** `follow(target)`. */
    method Follow(t: Player)
      modifies this`target
      ensures target == t
    {
      target := t;
    }

    /** `update()`: nothing without a target; otherwise each coordinate of
        the offset takes one easing step towards the clamped offset that
        centres the target's rect. An offset inside the box stays inside. */
    method Update()
      modifies this`offsetX, this`offsetY
      ensures target == null ==> offsetX == old(offsetX) && offsetY == old(offsetY)
      ensures target != null ==>
        var t := TargetOffset(target.rect.CenterX(), target.rect.CenterY());
        offsetX == Approach(old(offsetX), t.0 as real) &&
        offsetY == Approach(old(offsetY), t.1 as real)
      ensures old(InBox()) ==> InBox()
    {
      if target == null {
        return;
      }
      var t := TargetOffset(target.rect.CenterX(), target.rect.CenterY());
      ApproachContracts(offsetX, t.0 as real, 0.0, MAX_OFFSET_X as real);
      ApproachContracts(offsetY, t.1 as real, 0.0, MAX_OFFSET_Y as real);
      offsetX := offsetX + (t.0 as real - offsetX) * LERP;
      offsetY := offsetY + (t.1 as real - offsetY) * LERP;
    }

    /** `int(offset)`, the whole-pixel shift used by the conversions. */
    function Shift(): (int, int)
      reads this
    {
      (Trunc(offsetX), Trunc(offsetY))
    }

    /** `apply(entity)`: the entity's rect on the screen. */
    function Apply(r: Rect): (s: Rect)
      reads this
      ensures s.w == r.w && s.h == r.h
      ensures (s.x, s.y) == ApplyPos((r.x, r.y))
    {
      Rect(r.x - Trunc(offsetX), r.y - Trunc(offsetY), r.w, r.h)
    }

    /** `apply_pos(pos)`: world to screen. */
    function ApplyPos(p: (int, int)): (int, int)
      reads this
    {
      (p.0 - Trunc(offsetX), p.1 - Trunc(offsetY))
    }

    /** `reverse(screen_pos)`: screen to world. */
    function Reverse(p: (int, int)): (int, int)
      reads this
    {
      (p.0 + Trunc(offsetX), p.1 + Trunc(offsetY))
    }
  }

  /** The conversions are inverse to each other, for the same offset. */
  lemma RoundTrip(c: Camera, p: (int, int))
    ensures c.Reverse(c.ApplyPos(p)) == p
    ensures c.ApplyPos(c.Reverse(p)) == p
  {
  }

  /** The conversions shift by the whole-pixel offset; with an offset in
      the box that shift is in the box too, and `apply` moves two rects by
      the same amount, so it keeps whether they overlap. */
  lemma ApplyShifts(c: Camera, p: (int, int), r: Rect, q: Rect)
    requires c.InBox()
    ensures 0 <= c.Shift().0 <= MAX_OFFSET_X && 0 <= c.Shift().1 <= MAX_OFFSET_Y
    ensures c.ApplyPos(p) == (p.0 - c.Shift().0, p.1 - c.Shift().1)
    ensures Overlaps(c.Apply(r), c.Apply(q)) <==> Overlaps(r, q)
  {
  }
}
