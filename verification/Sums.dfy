/** Finite sums of integer weights over lists of members. */
module Sums {
  import opened Mesh
  import opened Sidecar

  function Weight(w: map<Ip, int>, k: Ip): int {
    if k in w then w[k] else 0
  }

  function Total(ks: seq<Ip>, w: map<Ip, int>): int {
    if ks == [] then 0 else Weight(w, ks[0]) + Total(ks[1..], w)
  }

  lemma {:induction false} TotalSame(ks: seq<Ip>, v: map<Ip, int>, w: map<Ip, int>)
    requires forall k :: k in ks ==> Weight(v, k) == Weight(w, k)
    ensures Total(ks, v) == Total(ks, w)
  {
    if ks != [] {
      TotalSame(ks[1..], v, w);
    }
  }

  /** Changing one weight changes the total by as much. */
  lemma {:induction false} TotalUpdate(ks: seq<Ip>, w: map<Ip, int>, k: Ip, x: int)
    requires Distinct(ks)
    ensures Total(ks, w[k := x]) == Total(ks, w) + (if k in ks then x - Weight(w, k) else 0)
  {
    if ks != [] {
      assert ks == [ks[0]] + ks[1..];
      TotalUpdate(ks[1..], w, k, x);
    }
  }

  /** The order of summation is irrelevant. */
  lemma {:induction false} TotalPermute(a: seq<Ip>, b: seq<Ip>, w: map<Ip, int>)
    requires Distinct(a) && Distinct(b)
    requires forall k :: k in w && w[k] != 0 ==> k in a && k in b
    ensures Total(a, w) == Total(b, w)
    decreases |a|
  {
    if a == [] {
      TotalSame(b, w, map[]);
      TotalZero(b);
    } else {
      assert a == [a[0]] + a[1..];
      TotalUpdate(a, w, a[0], 0);
      TotalUpdate(b, w, a[0], 0);
      TotalPermute(a[1..], b, w[a[0] := 0]);
    }
  }

  lemma {:induction false} TotalZero(ks: seq<Ip>)
    ensures Total(ks, map[]) == 0
  {
    if ks != [] {
      TotalZero(ks[1..]);
    }
  }

  lemma {:induction false} TotalOfThree(ks: seq<Ip>, a: map<Ip, int>, b: map<Ip, int>, c: map<Ip, int>, w: map<Ip, int>)
    requires forall k :: k in ks ==> Weight(w, k) == Weight(a, k) + Weight(b, k) + Weight(c, k)
    ensures Total(ks, w) == Total(ks, a) + Total(ks, b) + Total(ks, c)
  {
    if ks != [] {
      TotalOfThree(ks[1..], a, b, c, w);
    }
  }
}
