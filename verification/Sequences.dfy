/** Selecting elements of a sequence in order, and counting without repetition. */
module Sequences {

  /** The elements that satisfy `keep`, in their order. */
  function Pick<T>(q: seq<T>, keep: T -> bool): seq<T> {
    if q == [] then []
    else
      var n := |q| - 1;
      Pick(q[..n], keep) + if keep(q[n]) then [q[n]] else []
  }

  /** One more element: the step of every loop that appends to a selection. */
  lemma PickStep<T>(q: seq<T>, i: nat, keep: T -> bool)
    requires i < |q|
    ensures Pick(q[..i + 1], keep) == Pick(q[..i], keep) + if keep(q[i]) then [q[i]] else []
  {
    assert q[..i + 1][..i] == q[..i];
  }

  lemma {:induction false} PickMembers<T>(q: seq<T>, keep: T -> bool)
    ensures forall x | x in Pick(q, keep) :: x in q && keep(x)
    ensures forall x | x in q && keep(x) :: x in Pick(q, keep)
  {
    if q != [] {
      var n := |q| - 1;
      PickMembers(q[..n], keep);
      assert q == q[..n] + [q[n]];
    }
  }

  /** Elements in order after the selection were in that order before it. */
  lemma {:induction false} PickOrder<T>(q: seq<T>, keep: T -> bool, i: nat, j: nat)
    requires i < j < |Pick(q, keep)|
    ensures exists m, n :: 0 <= m < n < |q| && q[m] == Pick(q, keep)[i] && q[n] == Pick(q, keep)[j]
  {
    var last := |q| - 1;
    var front := Pick(q[..last], keep);
    if j < |front| {
      PickOrder(q[..last], keep, i, j);
      var m, n :| 0 <= m < n < last && q[..last][m] == front[i] && q[..last][n] == front[j];
      assert q[m] == front[i] && q[n] == front[j];
    } else {
      PickMembers(q[..last], keep);
      assert front[i] in front && front[i] in q[..last];
      var m :| 0 <= m < last && q[..last][m] == front[i];
      assert q[m] == Pick(q, keep)[i] && q[last] == Pick(q, keep)[j];
    }
  }

  /** `r` consists of the elements of `q` at the positions `idx`, in their order: those, and only those, that are
      good. */
  ghost predicate SelectedAt<T>(r: seq<T>, q: seq<T>, good: T -> bool, idx: seq<nat>) {
    && |r| == |idx| && (forall k | 0 <= k < |idx| :: idx[k] < |q| && r[k] == q[idx[k]])
    && (forall k, m | 0 <= k < m < |idx| :: idx[k] < idx[m])
    && forall i | 0 <= i < |q| :: good(q[i]) <==> i in idx
  }

  ghost predicate Selected<T(!new)>(r: seq<T>, q: seq<T>, good: T -> bool) {
    exists idx :: SelectedAt(r, q, good, idx)
  }

  lemma SelectedLonger<T>(r: seq<T>, q: seq<T>, x: T, good: T -> bool, idx: seq<nat>)
    requires SelectedAt(r, q, good, idx)
    ensures good(x) ==> SelectedAt(r + [x], q + [x], good, idx + [|q|])
    ensures !good(x) ==> SelectedAt(r, q + [x], good, idx)
  {
    var longer := q + [x];
    assert forall i | 0 <= i < |q| :: longer[i] == q[i];
    assert longer[|q|] == x && |q| !in idx;
    if good(x) {
      var more := idx + [|q|];
      assert forall i :: i in more <==> i in idx || i == |q|;
      assert forall k | 0 <= k < |idx| :: more[k] == idx[k] && (r + [x])[k] == r[k];
    }
  }

  lemma {:induction false} PickSelects<T>(q: seq<T>, keep: T -> bool) returns (idx: seq<nat>)
    ensures SelectedAt(Pick(q, keep), q, keep, idx)
  {
    idx := [];
    if q != [] {
      var n := |q| - 1;
      var before := PickSelects(q[..n], keep);
      SelectedLonger(Pick(q[..n], keep), q[..n], q[n], keep, before);
      assert q[..n] + [q[n]] == q;
      idx := if keep(q[n]) then before + [n] else before;
    }
  }

  lemma {:induction false} PickSame<T>(q: seq<T>, f: T -> bool, g: T -> bool)
    requires forall x | x in q :: f(x) == g(x)
    ensures Pick(q, f) == Pick(q, g)
  {
    if q != [] {
      var n := |q| - 1;
      assert q[n] in q && forall x | x in q[..n] :: x in q;
      PickSame(q[..n], f, g);
    }
  }

  lemma {:induction false} PickAll<T>(q: seq<T>, keep: T -> bool)
    requires forall x | x in q :: keep(x)
    ensures Pick(q, keep) == q
  {
    if q != [] {
      var n := |q| - 1;
      assert q[n] in q && forall x | x in q[..n] :: x in q;
      PickAll(q[..n], keep);
      assert q == q[..n] + [q[n]];
    }
  }

  lemma {:induction false} PickNone<T>(q: seq<T>, keep: T -> bool)
    requires forall x | x in q :: !keep(x)
    ensures Pick(q, keep) == []
  {
    if q != [] {
      var n := |q| - 1;
      assert q[n] in q && forall x | x in q[..n] :: x in q;
      PickNone(q[..n], keep);
    }
  }

  /** Selecting twice is selecting once by both. */
  lemma {:induction false} PickPick<T>(q: seq<T>, f: T -> bool, g: T -> bool, both: T -> bool)
    requires forall x | x in q :: both(x) == (f(x) && g(x))
    ensures Pick(Pick(q, f), g) == Pick(q, both)
  {
    if q != [] {
      var n := |q| - 1;
      assert q[n] in q && forall x | x in q[..n] :: x in q;
      PickPick(q[..n], f, g, both);
      var p := Pick(q[..n], f);
      if f(q[n]) {
        assert Pick(q, f) == p + [q[n]];
        assert (p + [q[n]])[..|p|] == p;
      } else {
        assert Pick(q, f) == p;
      }
    }
  }

  lemma {:induction false} PickCount<T>(q: seq<T>, f: T -> bool, g: T -> bool)
    requires forall x | x in q :: f(x) != g(x)
    ensures |Pick(q, f)| + |Pick(q, g)| == |q|
  {
    if q != [] {
      var n := |q| - 1;
      assert q[n] in q && forall x | x in q[..n] :: x in q;
      PickCount(q[..n], f, g);
    }
  }

  // ---------- Repetition ----------

  ghost predicate Distinct<T(!new)>(q: seq<T>) {
    forall i, j | 0 <= i < j < |q| :: q[i] != q[j]
  }

  ghost function Elements<T(!new)>(q: seq<T>): set<T> {
    set x | x in q
  }

  /** A sequence without repetition has as many elements as it is long. */
  lemma {:induction false} DistinctCount<T(!new)>(q: seq<T>)
    requires Distinct(q)
    ensures |Elements(q)| == |q|
  {
    if q == [] {
      assert Elements(q) == {};
    } else {
      var n := |q| - 1;
      DistinctCount(q[..n]);
      assert q == q[..n] + [q[n]];
      assert Elements(q) == Elements(q[..n]) + {q[n]};
    }
  }

  lemma SubsetCount<T>(a: set<T>, b: set<T>)
    requires a <= b
    ensures |a| <= |b|
  {
    assert b == a + (b - a);
  }

  /** If every x of `a` has a y of `b`, and no y serves two, then `b` has no fewer elements. */
  lemma {:induction false} InjectionCount(a: set<nat>, b: set<nat>, pairs: set<(nat, nat)>)
    requires forall x | x in a :: exists y :: y in b && (x, y) in pairs
    requires forall x, z, y | (x, y) in pairs && (z, y) in pairs :: x == z
    ensures |a| <= |b|
    decreases |a|
  {
    if a != {} {
      var x :| x in a;
      var y :| y in b && (x, y) in pairs;
      forall z | z in a - {x} ensures exists w :: w in b - {y} && (z, w) in pairs {
        var w :| w in b && (z, w) in pairs;
        assert w != y;
      }
      InjectionCount(a - {x}, b - {y}, pairs);
    }
  }

  /** Sets paired off one to one have equally many elements. */
  lemma BijectionCount(a: set<nat>, b: set<nat>, pairs: set<(nat, nat)>)
    requires forall x | x in a :: exists y :: y in b && (x, y) in pairs
    requires forall y | y in b :: exists x :: x in a && (x, y) in pairs
    requires forall x, z, y, w | (x, y) in pairs && (z, w) in pairs :: x == z <==> y == w
    ensures |a| == |b|
  {
    var inverse := set p | p in pairs :: (p.1, p.0);
    forall x, y ensures (y, x) in inverse <==> (x, y) in pairs {
      if (x, y) in pairs { assert (y, x) == ((x, y).1, (x, y).0); }
    }
    InjectionCount(a, b, pairs);
    forall y | y in b ensures exists x :: x in a && (y, x) in inverse {
      var x :| x in a && (x, y) in pairs;
      assert (y, x) in inverse;
    }
    InjectionCount(b, a, inverse);
  }
}
