/** What one tick does to the obstacle list: the falling-and-pruning pass
    (`moveObstacles`) and the rejection-sampled placement of a new obstacle
    (`createObstacle`), as functions on sequences that the game's methods are
    proved against. */
module Obstacles {
  import opened Geometry

  datatype Option<T> = None | Some(value: T)

  /** The list left by one pass of `moveObstacles`: every obstacle lowered by
      `speed`, and those whose new top edge lies below `floor` dropped.
      Defined on the last element so that it follows the forward scan. */
  function Advance(obs: seq<Rect>, speed: real, floor: real): (r: seq<Rect>)
    ensures |r| <= |obs|
    decreases |obs|
  {
    if obs == [] then []
    else
      var moved := Lower(obs[|obs| - 1], speed);
      Advance(obs[..|obs| - 1], speed, floor) + (if moved.y > floor then [] else [moved])
  }

  /** An obstacle is left after the pass exactly when it is some obstacle of
      the old list lowered once by `speed` and not below `floor`. */
  lemma {:induction false} AdvanceMembership(obs: seq<Rect>, speed: real, floor: real, o: Rect)
    ensures o in Advance(obs, speed, floor) <==>
            exists i :: 0 <= i < |obs| && o == Lower(obs[i], speed) && o.y <= floor
    decreases |obs|
  {
    if obs != [] {
      var init := obs[..|obs| - 1];
      AdvanceMembership(init, speed, floor, o);
      if o in Advance(obs, speed, floor) {
        if o in Advance(init, speed, floor) {
          var i :| 0 <= i < |init| && o == Lower(init[i], speed) && o.y <= floor;
          assert obs[i] == init[i];
        } else {
          assert o == Lower(obs[|obs| - 1], speed) && o.y <= floor;
        }
      } else {
        forall i | 0 <= i < |obs| && o == Lower(obs[i], speed)
          ensures o.y > floor
        {
          if i < |init| {
            assert init[i] == obs[i];
          }
        }
      }
    }
  }

  /** The pass works piecewise: survivors keep their relative order. */
  lemma {:induction false} AdvanceAppend(a: seq<Rect>, b: seq<Rect>, speed: real, floor: real)
    ensures Advance(a + b, speed, floor) == Advance(a, speed, floor) + Advance(b, speed, floor)
    decreases |b|
  {
    if b != [] {
      var b' := b[..|b| - 1];
      assert (a + b)[..|a + b| - 1] == a + b';
      AdvanceAppend(a, b', speed, floor);
    } else {
      assert a + b == a;
    }
  }

  /** When nothing falls off, every obstacle is lowered exactly once and none is lost. */
  lemma {:induction false} AdvanceWhenNoneFalls(obs: seq<Rect>, speed: real, floor: real)
    requires forall i :: 0 <= i < |obs| ==> obs[i].y + speed <= floor
    ensures |Advance(obs, speed, floor)| == |obs|
    ensures forall i :: 0 <= i < |obs| ==> Advance(obs, speed, floor)[i] == Lower(obs[i], speed)
    decreases |obs|
  {
    if obs != [] {
      var init := obs[..|obs| - 1];
      AdvanceWhenNoneFalls(init, speed, floor);
    }
  }

  /** The pass keeps pairwise non-overlap. */
  lemma {:induction false} AdvanceKeepsDisjoint(obs: seq<Rect>, speed: real, floor: real)
    requires Disjoint(obs)
    ensures Disjoint(Advance(obs, speed, floor))
    decreases |obs|
  {
    if obs != [] {
      var init := obs[..|obs| - 1];
      var last := obs[|obs| - 1];
      var moved := Lower(last, speed);
      PrefixDisjoint(obs, |obs| - 1);
      AdvanceKeepsDisjoint(init, speed, floor);
      var rest := Advance(init, speed, floor);
      if moved.y <= floor {
        forall k | 0 <= k < |rest| ensures !Overlaps(moved, rest[k]) {
          AdvanceMembership(init, speed, floor, rest[k]);
          var i :| 0 <= i < |init| && rest[k] == Lower(init[i], speed) && rest[k].y <= floor;
          assert init[i] == obs[i];
          assert !Overlaps(obs[i], last);
          LowerKeepsOverlap(obs[i], last, speed);
          OverlapsSymmetric(moved, rest[k]);
        }
        AppendKeepsDisjoint(rest, moved);
      } else {
        assert Advance(obs, speed, floor) == rest + [];
      }
    }
  }

  /** The candidate box `createObstacle` builds from one random draw in [0, 1). */
  function Candidate(draw: real, canvasWidth: real, w: real, h: real): Rect
  {
    Rect(draw * (canvasWidth - w), -h, w, h)
  }

  /** The obstacle `createObstacle` places, given the random draws it would make in
      turn: the first candidate that overlaps no existing obstacle, or None when
      every draw is rejected. */
  function FirstFit(obs: seq<Rect>, draws: seq<real>, canvasWidth: real, w: real, h: real): (r: Option<Rect>)
    ensures r.Some? ==> !HitsAny(r.value, obs)
    ensures r.Some? ==> r.value.width == w && r.value.height == h && r.value.y == -h
    ensures r.Some? ==> exists k :: 0 <= k < |draws| && r.value == Candidate(draws[k], canvasWidth, w, h) &&
                                    forall j :: 0 <= j < k ==> HitsAny(Candidate(draws[j], canvasWidth, w, h), obs)
    ensures r.None? <==> forall k :: 0 <= k < |draws| ==> HitsAny(Candidate(draws[k], canvasWidth, w, h), obs)
    decreases |draws|
  {
    if draws == [] then None
    else
      var c := Candidate(draws[0], canvasWidth, w, h);
      if !HitsAny(c, obs) then Some(c)
      else
        var r := FirstFit(obs, draws[1..], canvasWidth, w, h);
        assert forall k :: 1 <= k < |draws| ==> draws[k] == draws[1..][k - 1];
        if r.Some? then
          var k :| 0 <= k < |draws[1..]| && r.value == Candidate(draws[1..][k], canvasWidth, w, h) &&
                   forall j :: 0 <= j < k ==> HitsAny(Candidate(draws[1..][j], canvasWidth, w, h), obs);
          assert r.value == Candidate(draws[k + 1], canvasWidth, w, h);
          r
        else r
  }

  /** Placing the first fitting candidate keeps the obstacles pairwise disjoint. */
  lemma FirstFitKeepsDisjoint(obs: seq<Rect>, draws: seq<real>, canvasWidth: real, w: real, h: real)
    requires Disjoint(obs)
    ensures match FirstFit(obs, draws, canvasWidth, w, h)
            case Some(r) => Disjoint(obs + [r])
            case None => true
  {
    var f := FirstFit(obs, draws, canvasWidth, w, h);
    if f.Some? {
      AppendKeepsDisjoint(obs, f.value);
    }
  }
}
