/** Redis sorted sets, as far as the queue scripts use them. Members with equal scores come in any
    order here, which covers the lexicographic order that Redis applies to them. */
module SortedSets {

  /** The members that ZRANGEBYSCORE key -inf now selects before LIMIT. */
  function Due<M>(z: map<M, int>, now: int): set<M> {
    set m | m in z && z[m] <= now
  }

  /** LIMIT 0 batch: a negative count means no limit. */
  function Limit(batch: int, n: nat): nat {
    if batch < 0 || n <= batch then n else batch
  }

  ghost predicate Distinct<M>(r: seq<M>) {
    forall i, j | 0 <= i < j < |r| :: r[i] != r[j]
  }

  function Elements<M>(r: seq<M>): set<M> {
    set m | m in r
  }

  /** `r` is a possible answer to ZRANGEBYSCORE key -inf now LIMIT 0 batch. */
  ghost predicate IsRange<M>(z: map<M, int>, now: int, batch: int, r: seq<M>) {
    && Distinct(r)
    && |r| == Limit(batch, |Due(z, now)|)
    && (forall i | 0 <= i < |r| :: r[i] in z && z[r[i]] <= now)
    && (forall i, j | 0 <= i < j < |r| :: z[r[i]] <= z[r[j]])
    && (forall m, i | m in Due(z, now) && m !in r && 0 <= i < |r| :: z[r[i]] <= z[m])
  }

  /** `m` is a possible answer to ZPOPMIN. */
  ghost predicate IsLeast<M>(z: map<M, int>, m: M) {
    m in z && forall x | x in z :: z[m] <= z[x]
  }

  method LeastOf<M(==)>(z: map<M, int>, candidates: set<M>) returns (least: M)
    requires candidates != {} && candidates <= z.Keys
    ensures least in candidates
    ensures forall x | x in candidates :: z[least] <= z[x]
  {
    least :| least in candidates;
    var rest := candidates - {least};
    while rest != {}
      invariant rest <= candidates
      invariant least in candidates
      invariant forall x | x in candidates && x !in rest :: z[least] <= z[x]
      decreases |rest|
    {
      var x :| x in rest;
      if z[x] < z[least] {
        least := x;
      }
      rest := rest - {x};
    }
  }

  method RangeByScore<M(==)>(z: map<M, int>, now: int, batch: int) returns (r: seq<M>)
    ensures IsRange(z, now, batch, r)
  {
    r := [];
    var due := Due(z, now);
    var rest := due;
    var limit := Limit(batch, |due|);
    while |r| < limit
      invariant |r| <= limit && |r| + |rest| == |due|
      invariant rest <= due
      invariant Distinct(r)
      invariant forall i | 0 <= i < |r| :: r[i] in due && r[i] !in rest
      invariant forall m | m in due :: m in rest || m in r
      invariant forall i, j | 0 <= i < j < |r| :: z[r[i]] <= z[r[j]]
      invariant forall m, i | m in rest && 0 <= i < |r| :: z[r[i]] <= z[m]
    {
      assert rest != {};
      var m := LeastOf(z, rest);
      r := r + [m];
      rest := rest - {m};
    }
  }

  lemma {:induction false} DistinctSize<M>(r: seq<M>)
    requires Distinct(r)
    ensures |Elements(r)| == |r|
  {
    if r == [] {
      assert Elements(r) == {};
    } else {
      var init := r[..|r| - 1];
      DistinctSize(init);
      assert Elements(r) == Elements(init) + {r[|r| - 1]};
      assert r[|r| - 1] !in init;
    }
  }

  /** Taking the selected members out of the set leaves Due smaller by exactly the batch. */
  lemma DueAfterRange<M>(z: map<M, int>, now: int, batch: int, r: seq<M>)
    requires IsRange(z, now, batch, r)
    ensures Due(z - Elements(r), now) == Due(z, now) - Elements(r)
    ensures |Due(z - Elements(r), now)| == |Due(z, now)| - Limit(batch, |Due(z, now)|)
  {
    DistinctSize(r);
    assert Elements(r) <= Due(z, now);
    assert Due(z - Elements(r), now) == Due(z, now) - Elements(r);
  }

  lemma ProperSubsetSize<M>(a: set<M>, b: set<M>)
    requires a < b
    ensures |a| < |b|
  {
    assert b == a + (b - a);
    assert b - a != {};
  }

  /** If anything due is left out of a range, the batch is full and holds only earlier members. */
  lemma LeftOutIsLater<M>(z: map<M, int>, now: int, batch: int, r: seq<M>, m: M)
    requires IsRange(z, now, batch, r) && m in z && z[m] <= now && m !in r
    ensures |r| == batch && forall e | e in r :: z[e] <= z[m]
  {
    assert m in Due(z, now);
    DistinctSize(r);
    assert Elements(r) <= Due(z, now);
    ProperSubsetSize(Elements(r), Due(z, now));
  }

  /** How many of n due members are left after a number of calls with the same clock. */
  function Left(n: nat, batch: nat, calls: nat): nat {
    if n <= calls * batch then 0 else n - calls * batch
  }

  /** ceil(n / batch) calls, and no fewer, leave none. */
  lemma LeftIsZero(n: nat, batch: nat, calls: nat)
    requires batch > 0
    ensures Left(n, batch, calls) == 0 <==> calls >= (n + batch - 1) / batch
  {
    var c := (n + batch - 1) / batch;
    assert c * batch <= n + batch - 1 < c * batch + batch;
    if calls >= c {
      assert calls * batch >= c * batch;
    } else {
      assert (calls + 1) * batch <= c * batch;
    }
  }
}
