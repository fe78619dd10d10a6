/** The bounded cache of spoofing sockets, keyed by the address a socket is bound to. */
module Recency {
  import opened Mesh

  /** Keys other than `k`, in the same order. */
  function Without(keys: seq<Address>, k: Address): (r: seq<Address>)
    ensures forall x :: x in r <==> x in keys && x != k
    ensures |r| <= |keys|
    ensures k in keys ==> |r| < |keys|
  {
    if keys == [] then []
    else if keys[0] == k then Without(keys[1..], k)
    else [keys[0]] + Without(keys[1..], k)
  }

  /** The keys of the cache, oldest use first, after one lookup of `k`. */
  function Touch(keys: seq<Address>, k: Address): seq<Address> {
    if k in keys then Without(keys, k) + [k]
    else if |keys| >= MAX_SPOOF_SOCKETS then keys[1..] + [k]
    else keys + [k]
  }

  /** The keys of the cache after a whole trace of lookups. */
  function Cached(trace: seq<Address>): seq<Address> {
    if trace == [] then [] else Touch(Cached(trace[..|trace| - 1]), trace[|trace| - 1])
  }

  /** When `k` was last looked up; -1 if never. */
  function LastUse(trace: seq<Address>, k: Address): (r: int)
    ensures -1 <= r < |trace|
    ensures r >= 0 ==> trace[r] == k
    ensures forall x :: r < x < |trace| ==> trace[x] != k
  {
    if trace == [] then -1
    else if trace[|trace| - 1] == k then |trace| - 1
    else LastUse(trace[..|trace| - 1], k)
  }

  ghost predicate ByLastUse(trace: seq<Address>, keys: seq<Address>) {
    forall i, j :: 0 <= i < j < |keys| ==> LastUse(trace, keys[i]) < LastUse(trace, keys[j])
  }

  /** `k` was last used before every one of `keys`. */
  ghost predicate OlderThan(trace: seq<Address>, k: Address, keys: seq<Address>) {
    forall x :: x in keys ==> LastUse(trace, k) < LastUse(trace, x)
  }

  /** `keys` are the most recently used keys of the trace, in order of last use, and all of them if they fit. */
  ghost predicate MostRecent(trace: seq<Address>, keys: seq<Address>) {
    && |keys| <= MAX_SPOOF_SOCKETS
    && (forall k :: k in keys ==> k in trace)
    && ByLastUse(trace, keys)
    && (forall k :: k in trace && k !in keys ==> |keys| == MAX_SPOOF_SOCKETS && OlderThan(trace, k, keys))
  }

  lemma {:induction false} WithoutOrdered(trace: seq<Address>, keys: seq<Address>, k: Address)
    requires ByLastUse(trace, keys)
    ensures ByLastUse(trace, Without(keys, k))
    ensures k in keys ==> |Without(keys, k)| == |keys| - 1
    ensures k !in keys ==> Without(keys, k) == keys
  {
    if keys != [] {
      OrderedSplit(trace, keys);
      WithoutOrdered(trace, keys[1..], k);
      if keys[0] != k {
        OrderedJoin(trace, keys[0], Without(keys[1..], k));
        assert keys == [keys[0]] + keys[1..];
      }
    }
  }

  lemma OrderedSplit(trace: seq<Address>, keys: seq<Address>)
    requires ByLastUse(trace, keys) && keys != []
    ensures ByLastUse(trace, keys[1..]) && OlderThan(trace, keys[0], keys[1..])
    ensures keys[0] !in keys[1..] && forall x :: x in keys <==> x == keys[0] || x in keys[1..]
  {
    assert keys == [keys[0]] + keys[1..];
  }

  lemma OrderedJoin(trace: seq<Address>, k: Address, keys: seq<Address>)
    requires ByLastUse(trace, keys) && OlderThan(trace, k, keys)
    ensures ByLastUse(trace, [k] + keys)
  {
    var all := [k] + keys;
    forall i, j | 0 <= i < j < |all| ensures LastUse(trace, all[i]) < LastUse(trace, all[j]) {
      assert all[j] in keys;
      assert i > 0 ==> all[i] == keys[i - 1] && all[j] == keys[j - 1];
    }
  }

  lemma LastUseMoves(trace: seq<Address>, k: Address, x: Address)
    ensures LastUse(trace + [k], x) == if x == k then |trace| else LastUse(trace, x)
  {
    assert (trace + [k])[..|trace + [k]| - 1] == trace;
  }

  lemma StillOrdered(trace: seq<Address>, k: Address, keys: seq<Address>)
    requires ByLastUse(trace, keys) && k !in keys
    ensures ByLastUse(trace + [k], keys + [k])
  {
    var all := keys + [k];
    forall i, j | 0 <= i < j < |all| ensures LastUse(trace + [k], all[i]) < LastUse(trace + [k], all[j]) {
      LastUseMoves(trace, k, all[i]);
      LastUseMoves(trace, k, all[j]);
    }
  }

  lemma StillOlder(trace: seq<Address>, k: Address, x: Address, keys: seq<Address>, more: seq<Address>)
    requires OlderThan(trace, x, keys) && x != k && forall y :: y in more ==> y in keys || y == k
    ensures OlderThan(trace + [k], x, more)
  {
    forall y | y in more ensures LastUse(trace + [k], x) < LastUse(trace + [k], y) {
      LastUseMoves(trace, k, x);
      LastUseMoves(trace, k, y);
    }
  }

  /** The keys that survive a lookup of `k`. */
  function Survivors(keys: seq<Address>, k: Address): seq<Address> {
    if k in keys then Without(keys, k)
    else if |keys| >= MAX_SPOOF_SOCKETS then keys[1..]
    else keys
  }

  lemma TouchKeepsRecent(trace: seq<Address>, keys: seq<Address>, k: Address)
    requires MostRecent(trace, keys)
    ensures MostRecent(trace + [k], Touch(keys, k))
  {
    var kept, r := Survivors(keys, k), Touch(keys, k);
    assert r == kept + [k];
    WithoutOrdered(trace, keys, k);
    StillOrdered(trace, k, kept);
    forall x | x in trace + [k] && x !in r ensures |r| == MAX_SPOOF_SOCKETS && OlderThan(trace + [k], x, r) {
      if x in keys {
        // only the oldest key makes room
        assert x == keys[0];
        forall y | y in kept ensures LastUse(trace, x) < LastUse(trace, y) {
        }
        StillOlder(trace, k, x, kept, r);
      } else {
        StillOlder(trace, k, x, keys, r);
      }
    }
  }

  /** After any sequence of lookups the cache holds the most recently used keys, in order, and never too many. */
  lemma {:induction false} CacheIsMostRecent(trace: seq<Address>)
    ensures MostRecent(trace, Cached(trace))
    decreases |trace|
  {
    if trace != [] {
      var init, k := trace[..|trace| - 1], trace[|trace| - 1];
      CacheIsMostRecent(init);
      TouchKeepsRecent(init, Cached(init), k);
      assert trace == init + [k];
    }
  }

  // ---------- Only one list is most recent ----------

  lemma {:induction false} OrderedDistinct(trace: seq<Address>, keys: seq<Address>)
    requires ByLastUse(trace, keys)
    ensures |set k | k in keys| == |keys|
  {
    if keys != [] {
      assert keys == [keys[0]] + keys[1..];
      OrderedDistinct(trace, keys[1..]);
      assert keys[0] !in keys[1..];
      assert (set k | k in keys) == {keys[0]} + (set k | k in keys[1..]);
    }
  }

  lemma SubsetOfSameSize(a: set<Address>, b: set<Address>)
    requires a <= b && |a| >= |b|
    ensures a == b
  {
    assert b == a + (b - a);
  }

  lemma SameKeys(trace: seq<Address>, a: seq<Address>, b: seq<Address>)
    requires MostRecent(trace, a) && MostRecent(trace, b) && |a| <= |b|
    ensures (set k | k in a) == (set k | k in b)
  {
    OrderedDistinct(trace, a);
    OrderedDistinct(trace, b);
    var sa, sb := set k | k in a, set k | k in b;
    if x :| x in b && x !in a {
      // `x` was evicted from `a`, so `a` is full, and all of it was used after `x`
      forall y | y in a ensures y in b {
        assert LastUse(trace, x) < LastUse(trace, y);
      }
      SubsetOfSameSize(sa, sb);
    } else {
      assert sb <= sa;
      SubsetOfSameSize(sb, sa);
    }
  }

  lemma {:induction false} SameOrder(trace: seq<Address>, a: seq<Address>, b: seq<Address>)
    requires |a| == |b| && ByLastUse(trace, a) && ByLastUse(trace, b) && (forall k :: k in a <==> k in b)
    ensures a == b
  {
    if a != [] {
      assert b[0] in a && a[0] in b;
      var i :| 0 <= i < |b| && b[i] == a[0];
      var j :| 0 <= j < |a| && a[j] == b[0];
      assert a[0] == b[0];
      OrderedSplit(trace, a);
      OrderedSplit(trace, b);
      assert a == [a[0]] + a[1..] && b == [b[0]] + b[1..];
      SameOrder(trace, a[1..], b[1..]);
    }
  }

  /** The cache is the only list there is of the most recently used keys. */
  lemma CacheIsTheMostRecent(trace: seq<Address>, keys: seq<Address>)
    ensures MostRecent(trace, keys) <==> keys == Cached(trace)
  {
    CacheIsMostRecent(trace);
    if MostRecent(trace, keys) {
      var c := Cached(trace);
      if |keys| <= |c| {
        SameKeys(trace, keys, c);
      } else {
        SameKeys(trace, c, keys);
      }
      var inKeys, inCache := set k | k in keys, set k | k in c;
      assert inKeys == inCache;
      OrderedDistinct(trace, keys);
      OrderedDistinct(trace, c);
      assert forall k :: k in keys <==> k in inKeys;
      assert forall k :: k in c <==> k in inCache;
      SameOrder(trace, keys, c);
    }
  }
}
