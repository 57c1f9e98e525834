/** Sampling without replacement by rejection: `GetRandomItems` (pkg/util/util.go) and its
    twin for nodes, `getRandomNodes` (pkg/qingcloud/loadbalancer_utils.go). */
module Random {
  import opened Sequences

  /** Some reading of the stream at or after time t, reduced below max, is k. */
  ghost predicate DrawnAfter(draws: (nat, nat) -> nat, max: nat, t: nat, k: nat) {
    exists u: nat :: t <= u && draws(max, u) == k
  }

  /** The random source, as a stream of readings: reading t below max is `draws(max, t)`. */
  class Reader {
    const draws: (nat, nat) -> nat
    var tick: nat

    /** Readings are in range, and no number ever stops being drawn. */
    ghost predicate Fair() {
      && (forall max: nat, t: nat | 0 < max :: draws(max, t) < max)
      && (forall max: nat, t: nat, k: nat | k < max :: DrawnAfter(draws, max, t, k))
    }

    /** `rand.Int`, which panics on a non-positive bound. */
    method Int(max: nat) returns (r: nat)
      requires Fair() && 0 < max
      modifies this
      ensures r == draws(max, old(tick)) && r < max
      ensures tick == old(tick) + 1
    {
      r := draws(max, tick);
      tick := tick + 1;
    }
  }

  /** `picked` takes from `items` the elements at the pairwise distinct positions `idx`. */
  ghost predicate Sample<T>(picked: seq<T>, items: seq<T>, idx: seq<nat>) {
    && |picked| == |idx|
    && Distinct(idx)
    && (forall i | 0 <= i < |idx| :: idx[i] < |items| && picked[i] == items[idx[i]])
  }

  ghost function Below(n: nat): (r: set<nat>)
    ensures |r| == n
    ensures forall k: nat :: k in r <==> k < n
  {
    if n == 0 then {} else Below(n - 1) + {n - 1}
  }

  /** While fewer positions are taken than exist, one is still free. */
  lemma FreePosition(taken: set<nat>, n: nat)
    requires |taken| < n && forall k | k in taken :: k < n
    ensures exists k: nat :: k < n && k !in taken
  {
    if forall k: nat | k < n :: k in taken {
      SubsetCount(Below(n), taken);
      assert false;
    }
  }

  /** A time at or after t at which a free position is drawn. */
  lemma NextFree(draws: (nat, nat) -> nat, taken: set<nat>, n: nat, t: nat) returns (u: nat)
    requires |taken| < n && forall k | k in taken :: k < n
    requires forall max: nat, t: nat, k: nat | k < max :: DrawnAfter(draws, max, t, k)
    ensures t <= u && draws(n, u) !in taken
  {
    FreePosition(taken, n);
    var k: nat :| k < n && k !in taken;
    assert DrawnAfter(draws, n, t, k);
    u :| t <= u && draws(n, u) == k;
  }

  /** Draws positions until `count` different ones have come up. The loop ends because under a
      fair source every wait for a position not yet taken is finite. */
  method GetRandomItems<T>(reader: Reader, items: seq<T>, count: int) returns (result: seq<T>, ghost idx: seq<nat>)
    requires reader.Fair() && count <= |items|
    modifies reader
    ensures |result| == if count < 0 then 0 else count
    ensures Sample(result, items, idx)
  {
    var taken: set<nat> := {};
    result, idx := [], [];
    ghost var next: nat := reader.tick;
    if count > 0 {
      next := NextFree(reader.draws, taken, |items|, reader.tick);
    }
    var i := 0;
    while i < count
      invariant 0 <= i && i == |result| == |taken| && (i <= count || i == 0)
      invariant forall k | k in taken :: k < |items|
      invariant Sample(result, items, idx) && forall k | k in idx :: k in taken
      invariant i < count ==> reader.tick <= next && reader.draws(|items|, next) !in taken
      decreases count - i, next - reader.tick
    {
      var r := reader.Int(|items|);
      if r !in taken {
        result := result + [items[r]];
        idx := idx + [r];
        taken := taken + {r};
        i := i + 1;
        if i < count {
          next := NextFree(reader.draws, taken, |items|, reader.tick);
        }
      }
    }
  }

  /** A sample of pairwise distinct items has pairwise distinct items, all of them given. */
  lemma SampleDistinct<T(!new)>(picked: seq<T>, items: seq<T>, idx: seq<nat>)
    requires Sample(picked, items, idx) && Distinct(items)
    ensures Distinct(picked)
    ensures forall x | x in picked :: x in items
  {
  }

  /** Sampling as many items as there are takes every one of them. */
  lemma {:induction false} SampleAll<T>(picked: seq<T>, items: seq<T>, idx: seq<nat>)
    requires Sample(picked, items, idx) && |picked| == |items|
    ensures forall x | x in items :: x in picked
  {
    var taken := Elements(idx);
    DistinctCount(idx);
    forall p | 0 <= p < |items| ensures items[p] in picked {
      if p !in taken {
        var more := taken + {p};
        assert forall k | k in more :: k < |items|;
        assert more <= Below(|items|);
        SubsetCount(more, Below(|items|));
      }
      var i :| 0 <= i < |idx| && idx[i] == p;
      assert picked[i] == items[p];
    }
  }
}
