/** Integer rectangles (pygame's Rect), Python's int() truncation and the
    min/max clamps the simulation uses. */
module Geometry {

  /** A pygame Rect: integer top-left corner and a non-negative size. */
  datatype Rect = Rect(x: int, y: int, w: nat, h: nat) {
    function Right(): int { x + w }
    function Bottom(): int { y + h }
    /** pygame's `centerx` / `centery` getters (integer halving). */
    function CenterX(): int { x + w / 2 }
    function CenterY(): int { y + h / 2 }
  }

  /** pygame's `get_rect(center=(cx, cy))` and the `rect.center = (cx, cy)`
      setter: the size is kept and the corner placed so that the centre getter
      gives back (cx, cy). */
  function CenteredAt(cx: int, cy: int, w: nat, h: nat): (r: Rect)
    ensures r.w == w && r.h == h
  {
    Rect(cx - w / 2, cy - h / 2, w, h)
  }

  /** The centre getters give back the centre that was set. */
  lemma CenteredAtCentre(cx: int, cy: int, w: nat, h: nat)
    ensures CenteredAt(cx, cy, w, h).CenterX() == cx && CenteredAt(cx, cy, w, h).CenterY() == cy
  {
  }

  /** Division by 2 rounding toward zero, as C does inside pygame. */
  function HalfTowardZero(n: int): int
  {
    if n >= 0 then n / 2 else -((-n) / 2)
  }

  /** pygame's `rect.inflate(dx, dy)`: grows (or, for negative amounts,
      shrinks) the rectangle around its centre. */
  function Inflate(r: Rect, dx: int, dy: int): (s: Rect)
    requires r.w + dx >= 0 && r.h + dy >= 0
    ensures s.w == r.w + dx && s.h == r.h + dy
  {
    Rect(r.x - HalfTowardZero(dx), r.y - HalfTowardZero(dy), r.w + dx, r.h + dy)
  }

  /** Inflating by even amounts keeps the centre; shrinking by 2n moves the
      corner n inwards on each axis. */
  lemma InflateKeepsCentre(r: Rect, dx: int, dy: int)
    requires r.w + dx >= 0 && r.h + dy >= 0
    requires dx % 2 == 0 && dy % 2 == 0
    ensures Inflate(r, dx, dy).CenterX() == r.CenterX() && Inflate(r, dx, dy).CenterY() == r.CenterY()
    ensures Inflate(r, dx, dy).x == r.x - dx / 2 && Inflate(r, dx, dy).y == r.y - dy / 2
  {
  }

  /** pygame's `colliderect`: both rectangles have positive area and their
      interiors intersect (touching edges do not collide). */
  predicate Overlaps(a: Rect, b: Rect)
  {
    a.w > 0 && a.h > 0 && b.w > 0 && b.h > 0 &&
    a.x < b.Right() && b.x < a.Right() && a.y < b.Bottom() && b.y < a.Bottom()
  }

  lemma OverlapsSymmetric(a: Rect, b: Rect)
    ensures Overlaps(a, b) <==> Overlaps(b, a)
  {
  }

  /** Python's `int(v)` on a float: truncation toward zero. */
  function Trunc(v: real): (r: int)
    ensures v >= 0.0 ==> r >= 0 && r as real <= v < r as real + 1.0
    ensures v < 0.0 ==> r <= 0 && r as real - 1.0 < v <= r as real
  {
    if v >= 0.0 then v.Floor else -((-v).Floor)
  }

  /** Truncation commutes with adding a whole number `k` when the value is
      itself whole, or when the value and the sum lie on the same side of 0. */
  lemma TruncShift(v: real, k: int)
    requires v == Trunc(v) as real || (v >= 0.0 && v + k as real >= 0.0) ||
             (v <= 0.0 && v + k as real <= 0.0)
    ensures Trunc(v + k as real) == Trunc(v) + k
  {
    var t := Trunc(v) + k;
    if v == Trunc(v) as real {
      assert v + k as real == t as real;
    } else if v >= 0.0 {
      assert t as real <= v + k as real < t as real + 1.0;
    } else {
      assert t as real - 1.0 < v + k as real <= t as real;
    }
  }

  /** Python's `max(lo, min(v, hi))` on reals. */
  function ClampReal(v: real, lo: real, hi: real): (r: real)
    ensures lo <= r
    ensures lo <= hi ==> r <= hi
    ensures lo <= v <= hi ==> r == v
    ensures r == v || r == lo || r == hi
  {
    if v > hi then (if lo > hi then lo else hi) else if v < lo then lo else v
  }

  /** Python's `max(lo, min(v, hi))` on integers. */
  function ClampInt(v: int, lo: int, hi: int): (r: int)
    ensures lo <= r
    ensures lo <= hi ==> r <= hi
    ensures lo <= v <= hi ==> r == v
    ensures r == v || r == lo || r == hi
  {
    if v > hi then (if lo > hi then lo else hi) else if v < lo then lo else v
  }

  /** Squared Euclidean distance; comparisons of `math.hypot` against a
      non-negative threshold are made on squares, which is exact. */
  function Dist2(x1: real, y1: real, x2: real, y2: real): (d: real)
    ensures d >= 0.0
  {
    (x1 - x2) * (x1 - x2) + (y1 - y2) * (y1 - y2)
  }

  lemma MulPositive(a: real, b: real)
    requires a > 0.0 && b > 0.0
    ensures a * b > 0.0
  {
  }

  /** Comparing two non-negative lengths is the same as comparing their
      squares: this is what licenses replacing `hypot(a, b) <= d` by
      `a*a + b*b <= d*d`. */
  lemma {:induction false} CompareBySquares(s: real, t: real)
    requires s >= 0.0 && t >= 0.0
    ensures s <= t <==> s * s <= t * t
    ensures s < t <==> s * s < t * t
  {
    var ss, st, tt := s * s, s * t, t * t;
    assert st == t * s;
    if s < t {
      assert ss <= st;
      assert st < tt;
    } else if t < s {
      assert tt <= st;
      assert st < ss;
    }
  }
}
