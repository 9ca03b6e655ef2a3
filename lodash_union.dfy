/**
 lodash's `_.union(a, b)`: the concatenation of the argument arrays with every
 repeated element dropped, keeping each element where it first occurs.

 `Dedup` is defined the way lodash's uniqueness pass runs: walk the
 concatenation front to back and append an element only when it has not been
 seen yet. Equality is Dafny's `==` on the element type.
 */
module LodashUnion {

  /** No element occurs twice. */
  predicate Distinct<T(==,!new)>(s: seq<T>)
  {
    forall i, j :: 0 <= i < j < |s| ==> s[i] != s[j]
  }

  /** Position of the first occurrence of `x` in `s`. */
  function FirstIndex<T(==,!new)>(s: seq<T>, x: T): (k: nat)
    requires x in s
    ensures k < |s| && s[k] == x
    ensures forall i :: 0 <= i < k ==> s[i] != x
  {
    if s[0] == x then 0 else 1 + FirstIndex(s[1..], x)
  }

  /** `s` with its repeated elements dropped, first occurrences kept, in order. */
  function Dedup<T(==,!new)>(s: seq<T>): (r: seq<T>)
    ensures forall x :: x in r <==> x in s
    ensures |r| <= |s|
  {
    if |s| == 0 then []
    else
      var d := Dedup(s[..|s| - 1]);
      if s[|s| - 1] in d then d else d + [s[|s| - 1]]
  }

  /** No element occurs twice in `Dedup(s)`. */
  lemma {:induction false} DedupDistinct<T(!new)>(s: seq<T>)
    ensures Distinct(Dedup(s))
  {
    if |s| > 0 {
      DedupDistinct(s[..|s| - 1]);
    }
  }

  /** `_.union(a, b)`. */
  function Union<T(==,!new)>(a: seq<T>, b: seq<T>): (r: seq<T>)
    ensures forall x :: x in r <==> x in a || x in b
    ensures Distinct(r)
  {
    DedupDistinct(a + b);
    Dedup(a + b)
  }

  /** The elements of `b` that do not occur in `a`, in their order in `b`. */
  function Without<T(==,!new)>(b: seq<T>, a: seq<T>): (r: seq<T>)
    ensures forall x :: x in r <==> x in b && x !in a
  {
    if |b| == 0 then []
    else
      var w := Without(b[..|b| - 1], a);
      if b[|b| - 1] in a then w else w + [b[|b| - 1]]
  }

  /** Removing from `b` everything that `a` holds leaves nothing when `a` holds all of `b`. */
  lemma {:induction false} WithoutCovered<T(!new)>(b: seq<T>, a: seq<T>)
    requires forall x :: x in b ==> x in a
    ensures Without(b, a) == []
  {
    if |b| > 0 {
      WithoutCovered(b[..|b| - 1], a);
      assert b[|b| - 1] in b;
    }
  }

  /** De-duplicating a sequence that has no repeats leaves it as it is. */
  lemma {:induction false} DedupOfDistinct<T(!new)>(s: seq<T>)
    requires Distinct(s)
    ensures Dedup(s) == s
  {
    if |s| > 0 {
      var p := s[..|s| - 1];
      assert Distinct(p);
      DedupOfDistinct(p);
      assert s[|s| - 1] !in p;
      assert p + [s[|s| - 1]] == s;
    }
  }

  /** Appending one element to the input appends it to the output unless it was already seen. */
  lemma DedupSnoc<T(!new)>(s: seq<T>, y: T)
    ensures Dedup(s + [y]) == if y in s then Dedup(s) else Dedup(s) + [y]
  {
    assert (s + [y])[..|s + [y]| - 1] == s;
  }

  /** Appending one element to `b` appends it to `Without(b, a)` unless `a` holds it. */
  lemma WithoutSnoc<T(!new)>(b: seq<T>, a: seq<T>, y: T)
    ensures Without(b + [y], a) == if y in a then Without(b, a) else Without(b, a) + [y]
  {
    assert (b + [y])[..|b + [y]| - 1] == b;
  }

  /**
   The order of a union: first the distinct elements of `a` in the order they
   first occur in `a`, then the elements found only in `b`, in the order they
   first occur in `b`.
   */
  lemma {:induction false} UnionOrder<T(!new)>(a: seq<T>, b: seq<T>)
    ensures Union(a, b) == Dedup(a) + Dedup(Without(b, a))
  {
    if |b| == 0 {
      assert a + b == a;
    } else {
      var b', y := b[..|b| - 1], b[|b| - 1];
      assert b == b' + [y];
      UnionOrder(a, b');
      UnionOrderSnoc(a, b', y);
    }
  }

  /** One step of `UnionOrder`: appending `y` to the second argument. */
  lemma UnionOrderSnoc<T(!new)>(a: seq<T>, b: seq<T>, y: T)
    requires Dedup(a + b) == Dedup(a) + Dedup(Without(b, a))
    ensures Dedup(a + (b + [y])) == Dedup(a) + Dedup(Without(b + [y], a))
  {
    var w := Without(b, a);
    assert Dedup(a + (b + [y])) == if y in a + b then Dedup(a + b) else Dedup(a + b) + [y] by {
      assert a + (b + [y]) == (a + b) + [y];
      DedupSnoc(a + b, y);
    }
    assert Dedup(Without(b + [y], a)) == if y in a || y in b then Dedup(w) else Dedup(w) + [y] by {
      WithoutSnoc(b, a, y);
      DedupSnoc(w, y);
    }
    assert y in a + b <==> y in a || y in b;
    SnocCombine(Dedup(a), Dedup(w), Dedup(a + b), Dedup(a + (b + [y])), Dedup(Without(b + [y], a)), y, y in a + b);
  }

  /** Sequence bookkeeping for `UnionOrderSnoc`: appending on both sides keeps `d == da + dw`. */
  lemma SnocCombine<T>(da: seq<T>, dw: seq<T>, d: seq<T>, d2: seq<T>, dw2: seq<T>, y: T, seen: bool)
    requires d == da + dw
    requires d2 == if seen then d else d + [y]
    requires dw2 == if seen then dw else dw + [y]
    ensures d2 == da + dw2
  {
    if !seen {
      assert (da + dw) + [y] == da + (dw + [y]);
    }
  }

  /** When `a` has no repeats, the union starts with `a` itself, unchanged. */
  lemma UnionKeepsDistinctPrefix<T(!new)>(a: seq<T>, b: seq<T>)
    requires Distinct(a)
    ensures |a| <= |Union(a, b)|
    ensures Union(a, b)[..|a|] == a
  {
    UnionOrder(a, b);
    DedupOfDistinct(a);
    assert Union(a, b) == a + Dedup(Without(b, a));
  }

  /** A first occurrence inside a prefix is the first occurrence in the whole sequence. */
  lemma {:induction false} FirstIndexInPrefix<T(!new)>(s: seq<T>, n: nat, x: T)
    requires n <= |s| && x in s[..n]
    ensures FirstIndex(s, x) == FirstIndex(s[..n], x)
  {
    if s[0] != x {
      assert s[1..][..n - 1] == s[..n][1..];
      FirstIndexInPrefix(s[1..], n - 1, x);
    }
  }

  /** Elements of `r` appear in the order of their first occurrences in `s`. */
  predicate InFirstOccurrenceOrder<T(==,!new)>(r: seq<T>, s: seq<T>)
  {
    forall i, j :: 0 <= i < j < |r| && r[i] in s && r[j] in s ==>
      FirstIndex(s, r[i]) < FirstIndex(s, r[j])
  }

  /** `Dedup(s)` lists the elements of `s` in the order of their first occurrences. */
  lemma {:induction false} DedupFirstOccurrenceOrder<T(!new)>(s: seq<T>)
    ensures InFirstOccurrenceOrder(Dedup(s), s)
  {
    if |s| > 0 {
      var p := s[..|s| - 1];
      var y := s[|s| - 1];
      var d := Dedup(p);
      DedupFirstOccurrenceOrder(p);
      var r := Dedup(s);
      assert r == if y in p then d else d + [y];
      forall i, j | 0 <= i < j < |r| && r[i] in s && r[j] in s
        ensures FirstIndex(s, r[i]) < FirstIndex(s, r[j])
      {
        DedupOrderPair(s, i, j);
      }
    }
  }

  /** One pair of positions in the step of `DedupFirstOccurrenceOrder`. */
  lemma DedupOrderPair<T(!new)>(s: seq<T>, i: nat, j: nat)
    requires |s| > 0
    requires InFirstOccurrenceOrder(Dedup(s[..|s| - 1]), s[..|s| - 1])
    requires i < j < |Dedup(s)|
    ensures Dedup(s)[i] in s && Dedup(s)[j] in s
    ensures FirstIndex(s, Dedup(s)[i]) < FirstIndex(s, Dedup(s)[j])
  {
    var p := s[..|s| - 1];
    var y := s[|s| - 1];
    var d := Dedup(p);
    assert Dedup(s) == if y in p then d else d + [y];
    assert Dedup(s)[i] == d[i];
    FirstIndexInPrefix(s, |s| - 1, d[i]);
    if j < |d| {
      assert Dedup(s)[j] == d[j];
      FirstIndexInPrefix(s, |s| - 1, d[j]);
    } else {
      assert Dedup(s)[j] == y && y !in p;
      assert FirstIndex(s, y) == |s| - 1;
    }
  }

  /** The first element of a non-empty sequence is one of its elements. */
  lemma HeadIsMember<T>(s: seq<T>)
    requires |s| > 0
    ensures s[0] in s
  {
  }

  /**
   Distinct sequences over the same elements, both ordered by first
   occurrence in `s`, are the same sequence.
   */
  lemma {:induction false} OrderedByFirstOccurrenceUnique<T(!new)>(p: seq<T>, q: seq<T>, s: seq<T>)
    requires forall x :: x in p ==> x in s
    requires forall x :: x in p <==> x in q
    requires Distinct(p) && Distinct(q)
    requires InFirstOccurrenceOrder(p, s) && InFirstOccurrenceOrder(q, s)
    ensures p == q
  {
    if |p| == 0 {
      if |q| > 0 {
        HeadIsMember(q);
        assert false;
      }
    } else {
      assert p[0] in q;
      assert q[0] in p;
      assert p[0] == q[0];
      assert forall x :: x in p[1..] <==> x in q[1..] by {
        TailMembers(p);
        TailMembers(q);
      }
      TailOrdered(p, s);
      TailOrdered(q, s);
      OrderedByFirstOccurrenceUnique(p[1..], q[1..], s);
      assert p == [p[0]] + p[1..] && q == [q[0]] + q[1..];
    }
  }

  /** In a repeat-free sequence the tail holds every element except the head. */
  lemma TailMembers<T(!new)>(p: seq<T>)
    requires |p| > 0 && Distinct(p)
    ensures forall x :: x in p[1..] <==> x in p && x != p[0]
  {
    forall x | x in p && x != p[0] ensures x in p[1..] {
      var i :| 0 <= i < |p| && p[i] == x;
      assert p[1..][i - 1] == x;
    }
  }

  /** Dropping the head keeps a sequence in first-occurrence order. */
  lemma TailOrdered<T(!new)>(p: seq<T>, s: seq<T>)
    requires |p| > 0 && InFirstOccurrenceOrder(p, s)
    ensures InFirstOccurrenceOrder(p[1..], s)
  {
    forall i, j | 0 <= i < j < |p[1..]| && p[1..][i] in s && p[1..][j] in s
      ensures FirstIndex(s, p[1..][i]) < FirstIndex(s, p[1..][j])
    {
      assert p[1..][i] == p[i + 1] && p[1..][j] == p[j + 1];
    }
  }

  /**
   `Dedup(s)` is the only sequence that holds exactly the elements of `s`,
   each once, in first-occurrence order.
   */
  lemma DedupCharacterized<T(!new)>(s: seq<T>, r: seq<T>)
    requires forall x :: x in r <==> x in s
    requires Distinct(r)
    requires InFirstOccurrenceOrder(r, s)
    ensures r == Dedup(s)
  {
    DedupDistinct(s);
    DedupFirstOccurrenceOrder(s);
    OrderedByFirstOccurrenceUnique(r, Dedup(s), s);
  }
}
