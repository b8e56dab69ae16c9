/** Python's list.remove on a sequence value. */
module Sequences {

  /** `s.remove(x)`: drop the first element equal to `x`. Python raises ValueError when
      `x` is absent; every caller in the game removes an element it has just listed. */
  function RemoveFirst<T(==)>(s: seq<T>, x: T): (r: seq<T>)
    requires x in s
    ensures |r| == |s| - 1
    ensures multiset(r) == multiset(s) - multiset{x}
  {
    assert s == [s[0]] + s[1..];
    if s[0] == x then s[1..] else [s[0]] + RemoveFirst(s[1..], x)
  }

  /** Removing the head itself leaves the tail. */
  lemma RemoveFirstAtHead<T>(x: T, q: seq<T>)
    ensures RemoveFirst([x] + q, x) == q
  {
    assert ([x] + q)[1..] == q;
  }

  /** Removing an element that differs from the head leaves the head in front. */
  lemma RemoveFirstBehindHead<T>(h: T, t: seq<T>, x: T)
    requires x in t && x != h
    ensures RemoveFirst([h] + t, x) == [h] + RemoveFirst(t, x)
  {
    assert ([h] + t)[1..] == t;
  }

  /** When `x` does not occur in `p`, removing it from `p + [x] + q` leaves `p + q`. */
  lemma {:induction false} RemoveFirstCut<T>(p: seq<T>, x: T, q: seq<T>)
    requires x !in p
    ensures RemoveFirst(p + ([x] + q), x) == p + q
  {
    if p == [] {
      RemoveFirstAtHead(x, q);
    } else {
      var rest := p[1..] + ([x] + q);
      assert p + ([x] + q) == [p[0]] + rest;
      assert rest[|p| - 1] == x;
      RemoveFirstCut(p[1..], x, q);
      RemoveFirstBehindHead(p[0], rest, x);
      assert p + q == [p[0]] + (p[1..] + q);
    }
  }

  /** RemoveFirst cuts `s` at the first occurrence of `x` and keeps everything else in order. */
  lemma RemoveFirstSplits<T>(s: seq<T>, x: T, i: nat)
    requires i < |s| && s[i] == x && x !in s[..i]
    ensures RemoveFirst(s, x) == s[..i] + s[i + 1..]
  {
    var p, q := s[..i], s[i + 1..];
    RemoveFirstCut(p, x, q);
    assert p + ([x] + q) == s by {
      assert s[i..] == [x] + q;
      assert p + s[i..] == s;
    }
  }
}
