/** Axis-aligned rectangles and the strict overlap test the game uses both to
    place new obstacles and to detect a hit on the player. */
module Geometry {

  /** A box on the playfield: top-left corner (x, y) with y growing downwards. */
  datatype Rect = Rect(x: real, y: real, width: real, height: real)

  /** The strict overlap test: both the x-intervals and the y-intervals intersect. */
  predicate Overlaps(a: Rect, b: Rect)
  {
    && a.x < b.x + b.width
    && a.x + a.width > b.x
    && a.y < b.y + b.height
    && a.y + a.height > b.y
  }

  /** Some rectangle of `obs` overlaps `r`. */
  predicate HitsAny(r: Rect, obs: seq<Rect>)
  {
    exists i :: 0 <= i < |obs| && Overlaps(r, obs[i])
  }

  /** No two distinct entries of `obs` overlap. */
  ghost predicate Disjoint(obs: seq<Rect>)
  {
    forall i, j :: 0 <= i < j < |obs| ==> !Overlaps(obs[i], obs[j])
  }

  /** A point strictly inside `r`. */
  ghost predicate Inside(r: Rect, px: real, py: real)
  {
    r.x < px < r.x + r.width && r.y < py < r.y + r.height
  }

  /** `r` moved down by `dy`. */
  function Lower(r: Rect, dy: real): (s: Rect)
    ensures s.x == r.x && s.width == r.width && s.height == r.height
    ensures s.y - r.y == dy
  {
    r.(y := r.y + dy)
  }

  function Min(a: real, b: real): real { if a <= b then a else b }
  function Max(a: real, b: real): real { if a <= b then b else a }

  /** The order of the two boxes does not matter. */
  lemma OverlapsSymmetric(a: Rect, b: Rect)
    ensures Overlaps(a, b) <==> Overlaps(b, a)
  {
  }

  /** Boxes that share only an edge do not overlap. */
  lemma TouchingDoesNotOverlap(a: Rect, b: Rect)
    requires || a.x + a.width == b.x || b.x + b.width == a.x
             || a.y + a.height == b.y || b.y + b.height == a.y
    ensures !Overlaps(a, b)
  {
  }

  /** For boxes of positive size the strict test holds exactly when the two
      boxes have an interior point in common. */
  lemma OverlapsIffCommonPoint(a: Rect, b: Rect)
    requires a.width > 0.0 && a.height > 0.0 && b.width > 0.0 && b.height > 0.0
    ensures Overlaps(a, b) <==> exists px, py :: Inside(a, px, py) && Inside(b, px, py)
  {
    if Overlaps(a, b) {
      var px := (Max(a.x, b.x) + Min(a.x + a.width, b.x + b.width)) / 2.0;
      var py := (Max(a.y, b.y) + Min(a.y + a.height, b.y + b.height)) / 2.0;
      assert Inside(a, px, py) && Inside(b, px, py);
    }
  }

  /** Moving two boxes down by the same amount does not change whether they overlap. */
  lemma LowerKeepsOverlap(a: Rect, b: Rect, dy: real)
    ensures Overlaps(Lower(a, dy), Lower(b, dy)) <==> Overlaps(a, b)
  {
  }

  /** Appending a box that overlaps none of a disjoint collection keeps it disjoint. */
  lemma AppendKeepsDisjoint(obs: seq<Rect>, r: Rect)
    requires Disjoint(obs) && !HitsAny(r, obs)
    ensures Disjoint(obs + [r])
  {
    var s := obs + [r];
    forall i, j | 0 <= i < j < |s| ensures !Overlaps(s[i], s[j]) {
      if j == |obs| {
        assert !Overlaps(r, obs[i]);
        OverlapsSymmetric(r, obs[i]);
      }
    }
  }

  /** Every prefix of a disjoint collection is disjoint. */
  lemma PrefixDisjoint(obs: seq<Rect>, n: nat)
    requires Disjoint(obs) && n <= |obs|
    ensures Disjoint(obs[..n])
  {
  }
}
