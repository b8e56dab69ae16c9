/** Needles and the list operations the frame loop performs on them: advancing every
    needle by its own speed, and reaping the ones that have left the bottom of the screen. */
module Needles {
  import opened Config
  import opened Sequences

  /** One needle `[x, y, speed]`: (x, y) is the top of its pinhead, `speed` the downward
      distance it falls per frame, captured when it spawned. */
  datatype Needle = Needle(x: int, y: real, speed: real)

  /** `enemy[1] += enemy[2]`. */
  function Advanced(n: Needle): Needle {
    n.(y := n.y + n.speed)
  }

  /** Every needle falls by its own stored speed; nothing else about it changes. */
  function AdvanceAll(s: seq<Needle>): (r: seq<Needle>)
    ensures |r| == |s|
    ensures forall i :: 0 <= i < |s| ==>
      r[i].x == s[i].x && r[i].speed == s[i].speed && r[i].y == s[i].y + s[i].speed
  {
    if s == [] then [] else [Advanced(s[0])] + AdvanceAll(s[1..])
  }

  /** Advancing a list one needle further. */
  lemma {:induction false} AdvanceAllAppend(s: seq<Needle>, n: Needle)
    ensures AdvanceAll(s + [n]) == AdvanceAll(s) + [Advanced(n)]
  {
    if s != [] {
      assert (s + [n])[1..] == s[1..] + [n];
      AdvanceAllAppend(s[1..], n);
    } else {
      assert s + [n] == [n];
    }
  }

  /** A needle whose top has passed the bottom edge (strictly). */
  predicate OffScreen(n: Needle) {
    n.y > ScreenHeight as real
  }

  /** The needles the frame keeps, in their original order. */
  function Survivors(s: seq<Needle>): (r: seq<Needle>)
    ensures |r| <= |s|
    ensures forall n :: n in r <==> n in s && !OffScreen(n)
  {
    if s == [] then []
    else if OffScreen(s[0]) then Survivors(s[1..])
    else [s[0]] + Survivors(s[1..])
  }

  /** `enemies_to_remove`: the off-screen needles, in list order. */
  function Marked(s: seq<Needle>): (r: seq<Needle>)
    ensures |r| <= |s|
    ensures forall n :: n in r <==> n in s && OffScreen(n)
  {
    if s == [] then []
    else if OffScreen(s[0]) then [s[0]] + Marked(s[1..])
    else Marked(s[1..])
  }

  /** `s` with its first `k` off-screen needles taken out: the list part-way through the
      removal loop. */
  function DropMarked(s: seq<Needle>, k: nat): seq<Needle> {
    if s == [] then []
    else if OffScreen(s[0]) && k > 0 then DropMarked(s[1..], k - 1)
    else [s[0]] + DropMarked(s[1..], k)
  }

  /** Every needle is either kept or marked, never both: so the number removed is exactly
      the number of needles lost. */
  lemma {:induction false} SurvivorsMarkedPartition(s: seq<Needle>)
    ensures |Survivors(s)| + |Marked(s)| == |s|
    ensures multiset(Survivors(s)) + multiset(Marked(s)) == multiset(s)
  {
    if s != [] {
      SurvivorsMarkedPartition(s[1..]);
      assert s == [s[0]] + s[1..];
    }
  }

  /** Filtering commutes with concatenation: the survivors keep their relative order. */
  lemma {:induction false} SurvivorsAppend(a: seq<Needle>, b: seq<Needle>)
    ensures Survivors(a + b) == Survivors(a) + Survivors(b)
  {
    if a != [] {
      assert (a + b)[1..] == a[1..] + b;
      SurvivorsAppend(a[1..], b);
    } else {
      assert a + b == b;
    }
  }

  lemma {:induction false} MarkedAppend(a: seq<Needle>, b: seq<Needle>)
    ensures Marked(a + b) == Marked(a) + Marked(b)
  {
    if a != [] {
      assert (a + b)[1..] == a[1..] + b;
      MarkedAppend(a[1..], b);
    } else {
      assert a + b == b;
    }
  }

  /** A kept needle splits the survivors into those before it, itself, and those after it. */
  lemma SurvivorsAround(s: seq<Needle>, i: nat)
    requires i < |s| && !OffScreen(s[i])
    ensures Survivors(s) == Survivors(s[..i]) + [s[i]] + Survivors(s[i + 1..])
  {
    var t := s[i..];
    assert s[..i] + t == s;
    SurvivorsAppend(s[..i], t);
    assert t[0] == s[i] && t[1..] == s[i + 1..];
    assert Survivors(t) == [s[i]] + Survivors(s[i + 1..]);
  }

  /** A list with nothing off screen loses nothing. */
  lemma {:induction false} SurvivorsAllOnScreen(s: seq<Needle>)
    requires forall i :: 0 <= i < |s| ==> !OffScreen(s[i])
    ensures Survivors(s) == s && Marked(s) == []
  {
    if s != [] {
      SurvivorsAllOnScreen(s[1..]);
    }
  }

  lemma {:induction false} DropMarkedNone(s: seq<Needle>)
    ensures DropMarked(s, 0) == s
  {
    if s != [] {
      DropMarkedNone(s[1..]);
    }
  }

  /** Dropping every marked needle leaves exactly the survivors. */
  lemma {:induction false} DropMarkedAll(s: seq<Needle>)
    ensures DropMarked(s, |Marked(s)|) == Survivors(s)
  {
    if s != [] {
      DropMarkedAll(s[1..]);
    }
  }

  /** One round of `for enemy in enemies_to_remove: enemies.remove(enemy)`: the k-th marked
      needle is still in the list, and Python's remove (which takes the first EQUAL element)
      takes out exactly the next off-screen needle. Equal needles are interchangeable, so
      removing by value is removing by position. */
  lemma {:induction false} DropMarkedNext(s: seq<Needle>, k: nat)
    requires k < |Marked(s)|
    ensures Marked(s)[k] in DropMarked(s, k)
    ensures RemoveFirst(DropMarked(s, k), Marked(s)[k]) == DropMarked(s, k + 1)
  {
    var h, t := s[0], s[1..];
    if OffScreen(h) {
      if k == 0 {
        DropMarkedNone(s);
        DropMarkedNone(t);
      } else {
        DropMarkedNext(t, k - 1);
      }
    } else {
      DropMarkedNext(t, k);
      var x := Marked(t)[k];
      assert x in Marked(t);
      RemoveFirstBehindHead(h, DropMarked(t, k), x);
    }
  }
}
