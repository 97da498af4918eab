/** Priority selection: a strict total order on (first, second, id) keys, sorting, and the
    meaning of "the first `limit` entries of the sorted pool". */
module Priority {
  import opened Identifiers

  datatype Rank = Rank(first: Time, second: Time, id: ID)

  predicate Before(x: Rank, y: Rank) {
    || x.first < y.first
    || (x.first == y.first && (x.second < y.second || (x.second == y.second && StringLess(x.id, y.id))))
  }

  lemma BeforeTotal(x: Rank, y: Rank)
    ensures Before(x, y) || Before(y, x) || x == y
    ensures !(Before(x, y) && Before(y, x))
    ensures x == y ==> !Before(x, y)
  {
    StringLessTotal(x.id, y.id);
  }

  lemma BeforeTransitive(x: Rank, y: Rank, z: Rank)
    requires Before(x, y) && Before(y, z)
    ensures Before(x, z)
  {
    if x.first == y.first == z.first && x.second == y.second == z.second {
      StringLessTransitive(x.id, y.id, z.id);
    }
  }

  ghost predicate Sorted(s: seq<Rank>) {
    forall i, j :: 0 <= i < j < |s| ==> Before(s[i], s[j])
  }

  ghost function Elements(s: seq<Rank>): set<Rank> { set x | x in s }

  /** `picked` is exactly the first `limit` entries of `pool` in priority order: an entry of the
      pool is passed over only when the limit was filled by entries before it. */
  ghost predicate TopOf(picked: seq<Rank>, pool: set<Rank>, limit: nat) {
    && Sorted(picked)
    && |picked| <= limit
    && (forall x :: x in picked ==> x in pool)
    && (forall x, p :: x in pool && x !in picked && p in picked ==> Before(p, x))
    && (|picked| < limit ==> forall x :: x in pool ==> x in picked)
  }

  /** What one list picks at position k is not before what the other picks there. */
  lemma NotBefore(p: seq<Rank>, q: seq<Rank>, pool: set<Rank>, limit: nat, k: nat)
    requires TopOf(q, pool, limit) && Sorted(p) && k < |q| && k < |p| && p[..k] == q[..k]
    requires p[k] in pool
    ensures !Before(p[k], q[k])
  {
    BeforeTotal(p[k], q[k]);
    if p[k] in q {
      var i :| 0 <= i < |q| && q[i] == p[k];
      assert i < k ==> p[i] == p[..k][i] == q[..k][i] == q[i];
      BeforeTotal(p[k], p[k]);
    } else {
      assert q[k] in q;
    }
  }

  lemma SamePosition(p: seq<Rank>, q: seq<Rank>, pool: set<Rank>, limit: nat, k: nat)
    requires TopOf(p, pool, limit) && TopOf(q, pool, limit)
    requires k < |p| && k < |q| && p[..k] == q[..k]
    ensures p[k] == q[k]
  {
    NotBefore(p, q, pool, limit, k);
    NotBefore(q, p, pool, limit, k);
    BeforeTotal(p[k], q[k]);
  }

  lemma NotInPrefix(p: seq<Rank>, k: nat)
    requires Sorted(p) && k < |p|
    ensures p[k] !in p[..k]
  {
    BeforeTotal(p[k], p[k]);
    assert forall i :: 0 <= i < k ==> p[..k][i] == p[i];
  }

  lemma LongerIsImpossible(p: seq<Rank>, q: seq<Rank>, pool: set<Rank>, limit: nat)
    requires TopOf(p, pool, limit) && TopOf(q, pool, limit)
    requires |q| <= |p| && q == p[..|q|]
    ensures |q| == |p|
  {
    if |q| < |p| {
      NotInPrefix(p, |q|);
    }
  }

  /** The selection is determined: there is no second way to pick. */
  lemma {:induction false} TopOfUnique(p: seq<Rank>, q: seq<Rank>, pool: set<Rank>, limit: nat)
    requires TopOf(p, pool, limit) && TopOf(q, pool, limit)
    ensures p == q
  {
    var k := 0;
    while k < |p| && k < |q|
      invariant k <= |p| && k <= |q| && p[..k] == q[..k]
    {
      SamePosition(p, q, pool, limit, k);
      k := k + 1;
    }
    if |q| <= |p| {
      LongerIsImpossible(p, q, pool, limit);
    } else {
      LongerIsImpossible(q, p, pool, limit);
    }
  }

  /** Taking a prefix of the sorted pool is the selection. */
  lemma PrefixIsTop(sorted: seq<Rank>, limit: nat)
    requires Sorted(sorted)
    ensures TopOf(sorted[..if limit < |sorted| then limit else |sorted|], Elements(sorted), limit)
  {
    var n := if limit < |sorted| then limit else |sorted|;
    var picked := sorted[..n];
    assert forall i :: 0 <= i < n ==> sorted[i] == picked[i];
    forall x, p | x in Elements(sorted) && x !in picked && p in picked
      ensures Before(p, x)
    {
      var i :| 0 <= i < |sorted| && sorted[i] == x;
      var j :| 0 <= j < n && picked[j] == p;
    }
  }

  method Least(pool: set<Rank>) returns (x: Rank)
    requires pool != {}
    ensures x in pool
    ensures forall y :: y in pool && y != x ==> Before(x, y)
  {
    x :| x in pool;
    var rest := pool - {x};
    while rest != {}
      invariant x in pool && rest <= pool - {x}
      invariant forall y :: y in pool - rest && y != x ==> Before(x, y)
      decreases |rest|
    {
      var y :| y in rest;
      BeforeTotal(x, y);
      rest := rest - {y};
      if Before(y, x) {
        forall z | z in pool - rest && z != y ensures Before(y, z) {
          if z != x { BeforeTransitive(y, x, z); }
        }
        x := y;
      }
    }
  }

  /** Sorting the collected candidates (slices.SortFunc with a strict total comparison). */
  method Sort(pool: set<Rank>) returns (sorted: seq<Rank>)
    ensures Sorted(sorted)
    ensures Elements(sorted) == pool
  {
    sorted := [];
    var rest := pool;
    while rest != {}
      invariant Sorted(sorted)
      invariant Elements(sorted) + rest == pool && Elements(sorted) !! rest
      invariant forall x, y :: x in sorted && y in rest ==> Before(x, y)
      decreases |rest|
    {
      var x := Least(rest);
      assert Elements(sorted + [x]) == Elements(sorted) + {x};
      sorted := sorted + [x];
      rest := rest - {x};
    }
  }
}
