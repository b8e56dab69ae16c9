/** `is_collision`: the balloon against a needle split into two hitboxes, so that the empty
    corners beside the narrow shaft below the pinhead do not count as hits. */
module Collision {
  import opened Config
  import opened Geometry
  import opened Needles

  /** The balloon's hitbox `(player_x, player_y, 40, 60)`. */
  function Balloon(px: real, py: real): Rect {
    Rect(px, py, PlayerWidth as real, PlayerHeight as real)
  }

  /** The shaft below the pinhead: `(x - 5, y + 6, 10, 74)`. */
  function Shaft(n: Needle): Rect {
    Rect(n.x as real - EnemyWidth as real / 2.0, n.y + PinheadRadius as real,
         EnemyWidth as real, (EnemyHeight - PinheadRadius) as real)
  }

  /** The square round the pinhead: `(x - 6, y, 12, 6)`. */
  function Pinhead(n: Needle): Rect {
    Rect((n.x - PinheadRadius) as real, n.y, (PinheadRadius * 2) as real, PinheadRadius as real)
  }

  /** The whole needle's bounding box `(x - 6, y, 12, 80)`, which the game deliberately does
      not use. */
  function Bounds(n: Needle): Rect {
    Rect((n.x - PinheadRadius) as real, n.y, (PinheadRadius * 2) as real, EnemyHeight as real)
  }

  predicate IsCollision(px: real, py: real, n: Needle) {
    Overlaps(Balloon(px, py), Shaft(n)) || Overlaps(Balloon(px, py), Pinhead(n))
  }

  /** Some needle of `s` hits the balloon. */
  predicate AnyCollision(px: real, py: real, s: seq<Needle>) {
    exists i :: 0 <= i < |s| && IsCollision(px, py, s[i])
  }

  /** Testing one more needle: the list hits if the earlier needles did or the new one does. */
  lemma AnyCollisionAppend(px: real, py: real, s: seq<Needle>, n: Needle)
    ensures AnyCollision(px, py, s + [n]) <==> AnyCollision(px, py, s) || IsCollision(px, py, n)
  {
    if IsCollision(px, py, n) {
      assert (s + [n])[|s|] == n;
    }
    if AnyCollision(px, py, s) {
      var i :| 0 <= i < |s| && IsCollision(px, py, s[i]);
      assert (s + [n])[i] == s[i];
    }
  }

  /** Both hitboxes lie inside the needle's bounding box, so every hit is a hit on the
      bounding box. */
  lemma CollisionWithinBounds(px: real, py: real, n: Needle)
    requires IsCollision(px, py, n)
    ensures Overlaps(Balloon(px, py), Bounds(n))
  {
    assert Within(Shaft(n), Bounds(n)) && Within(Pinhead(n), Bounds(n));
    if Overlaps(Balloon(px, py), Shaft(n)) {
      OverlapsEnclosing(Balloon(px, py), Shaft(n), Bounds(n));
    } else {
      OverlapsEnclosing(Balloon(px, py), Pinhead(n), Bounds(n));
    }
  }

  /** The converse fails: a balloon in the empty corner beside the shaft, below the pinhead,
      overlaps the bounding box without a collision. */
  lemma BoundsOverlapIsNotCollision()
    ensures Overlaps(Balloon(55.0, 106.0), Bounds(Needle(100, 100.0, 0.5)))
    ensures !IsCollision(55.0, 106.0, Needle(100, 100.0, 0.5))
  {
  }

  /** The test is symmetric: it asks the same of the needle's hitboxes against the balloon. */
  lemma CollisionSymmetric(px: real, py: real, n: Needle)
    ensures IsCollision(px, py, n) <==>
            Overlaps(Shaft(n), Balloon(px, py)) || Overlaps(Pinhead(n), Balloon(px, py))
  {
    OverlapsSymmetric(Balloon(px, py), Shaft(n));
    OverlapsSymmetric(Balloon(px, py), Pinhead(n));
  }

  /** A needle whose top is at or below the balloon's bottom edge does not hit it. */
  lemma NeedleBelowMisses(px: real, py: real, n: Needle)
    requires n.y >= py + PlayerHeight as real
    ensures !IsCollision(px, py, n)
  {
  }

  /** A needle whose tip is at or above the balloon's top edge does not hit it. */
  lemma NeedleAboveMisses(px: real, py: real, n: Needle)
    requires n.y + EnemyHeight as real <= py
    ensures !IsCollision(px, py, n)
  {
  }

  /** A needle entirely to the left or right of the balloon does not hit it. */
  lemma NeedleBesideMisses(px: real, py: real, n: Needle)
    requires (n.x + PinheadRadius) as real <= px || px + PlayerWidth as real <= (n.x - PinheadRadius) as real
    ensures !IsCollision(px, py, n)
  {
  }

  /** A needle falling straight onto the balloon's middle hits it. */
  lemma NeedleOnTopHits(px: real, py: real, n: Needle)
    requires px + 5.0 <= n.x as real <= px + PlayerWidth as real - 5.0
    requires py - EnemyHeight as real < n.y < py + PlayerHeight as real
    ensures IsCollision(px, py, n)
  {
  }
}
