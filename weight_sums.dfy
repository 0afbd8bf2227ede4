/** Sums over the keyed weight tables: the running totals the policy and
    discount resolvers accumulate, and the total of a whole table, which
    bounds what a list without repeated keys can accumulate. */
module WeightSums {

  /** Every weight in the table is non-negative. */
  ghost predicate NonNegative(t: map<string, real>) {
    forall k :: k in t ==> t[k] >= 0.0
  }

  /** No key occurs twice in the list. */
  ghost predicate Distinct(keys: seq<string>) {
    forall i, j :: 0 <= i < j < |keys| ==> keys[i] != keys[j]
  }

  /** The weights of the keys of `keys` that `t` holds, added left to right;
      a key the table does not hold adds nothing. */
  function KnownSum(t: map<string, real>, keys: seq<string>): (r: real)
    ensures NonNegative(t) ==> r >= 0.0
  {
    if keys == [] then 0.0
    else
      var last := keys[|keys| - 1];
      KnownSum(t, keys[..|keys| - 1]) + (if last in t then t[last] else 0.0)
  }

  /** The sum of every weight the table holds. */
  ghost function MapTotal(t: map<string, real>): real
    decreases |t.Keys|
  {
    if t.Keys == {} then 0.0
    else
      var k :| k in t.Keys;
      t[k] + MapTotal(t - {k})
  }

  /** Appending keys adds their known weights to the running total. */
  lemma {:induction false} KnownSumAppend(t: map<string, real>, a: seq<string>, b: seq<string>)
    ensures KnownSum(t, a + b) == KnownSum(t, a) + KnownSum(t, b)
    decreases |b|
  {
    if b == [] {
      assert a + b == a;
    } else {
      var b' := b[..|b| - 1];
      assert (a + b)[..|a + b| - 1] == a + b';
      KnownSumAppend(t, a, b');
    }
  }

  /** A key that the list does not mention can be dropped from the table. */
  lemma {:induction false} KnownSumIgnoresUnlisted(t: map<string, real>, k: string, keys: seq<string>)
    requires k !in keys
    ensures KnownSum(t, keys) == KnownSum(t - {k}, keys)
    decreases |keys|
  {
    if keys != [] {
      KnownSumIgnoresUnlisted(t, k, keys[..|keys| - 1]);
    }
  }

  lemma {:induction false} MapTotalNonNegative(t: map<string, real>)
    requires NonNegative(t)
    ensures MapTotal(t) >= 0.0
    decreases |t.Keys|
  {
    if t.Keys != {} {
      var k :| k in t.Keys && MapTotal(t) == t[k] + MapTotal(t - {k});
      MapTotalNonNegative(t - {k});
    }
  }

  /** The table total splits off any one of its entries, whichever the
      definition happened to pick first. */
  lemma {:induction false} MapTotalRemove(t: map<string, real>, k: string)
    requires k in t
    ensures MapTotal(t) == t[k] + MapTotal(t - {k})
    decreases |t.Keys|
  {
    var j :| j in t.Keys && MapTotal(t) == t[j] + MapTotal(t - {j});
    if j != k {
      MapTotalRemove(t - {j}, k);
      MapTotalRemove(t - {k}, j);
      assert t - {j} - {k} == t - {k} - {j};
    }
  }

  /** A list without repeated keys accumulates at most the table total. */
  lemma {:induction false} KnownSumAtMostTotal(t: map<string, real>, keys: seq<string>)
    requires NonNegative(t) && Distinct(keys)
    ensures KnownSum(t, keys) <= MapTotal(t)
    decreases |keys|
  {
    if keys == [] {
      MapTotalNonNegative(t);
    } else {
      var front, last := keys[..|keys| - 1], keys[|keys| - 1];
      if last in t {
        assert last !in front;
        KnownSumIgnoresUnlisted(t, last, front);
        KnownSumAtMostTotal(t - {last}, front);
        MapTotalRemove(t, last);
      } else {
        KnownSumAtMostTotal(t, front);
      }
    }
  }
}
