/** Keeping the first element of each key: the in-memory dedup the shot
    scraper runs over a season's shots before its batch upsert, stated for
    any key function. */
module KeyedDedup {
  function KeySet<T, K(==)>(rs: seq<T>, key: T -> K): set<K> {
    set i | 0 <= i < |rs| :: key(rs[i])
  }

  /** The first record of each key, in their original order. */
  function Dedup<T, K(==)>(rs: seq<T>, key: T -> K): seq<T>
    decreases |rs|
  {
    if |rs| == 0 then []
    else
      var init := rs[..|rs| - 1];
      var last := rs[|rs| - 1];
      if key(last) in KeySet(init, key) then Dedup(init, key) else Dedup(init, key) + [last]
  }

  /** The position of the first record with key `k`. */
  function FirstWithKey<T, K(==)>(rs: seq<T>, k: K, key: T -> K): (i: nat)
    requires k in KeySet(rs, key)
    ensures i < |rs| && key(rs[i]) == k
    ensures forall j | 0 <= j < i :: key(rs[j]) != k
  {
    if key(rs[0]) == k then 0
    else
      assert k in KeySet(rs[1..], key) by {
        var j :| 0 <= j < |rs| && key(rs[j]) == k;
        assert rs[1..][j - 1] == rs[j];
      }
      1 + FirstWithKey(rs[1..], k, key)
  }

  lemma KeySetSnoc<T, K>(rs: seq<T>, r: T, key: T -> K)
    ensures KeySet(rs + [r], key) == KeySet(rs, key) + {key(r)}
  {
    var xs := rs + [r];
    assert forall i | 0 <= i < |rs| :: xs[i] == rs[i];
    assert xs[|rs|] == r;
  }

  /** The dedup keeps one record for every key, and no other keys. */
  lemma {:induction false} DedupKeySet<T, K>(rs: seq<T>, key: T -> K)
    ensures KeySet(Dedup(rs, key), key) == KeySet(rs, key)
    decreases |rs|
  {
    if |rs| > 0 {
      var init, last := rs[..|rs| - 1], rs[|rs| - 1];
      assert rs == init + [last];
      DedupKeySet(init, key);
      KeySetSnoc(init, last, key);
      KeySetSnoc(Dedup(init, key), last, key);
    }
  }

  /** No two records share a dedup key. */
  predicate DistinctBy<T, K(==)>(rs: seq<T>, key: T -> K) {
    forall i, j | 0 <= i < j < |rs| :: key(rs[i]) != key(rs[j])
  }

  /** The dedup on a batch one record longer. */
  lemma DedupSnoc<T, K>(init: seq<T>, last: T, key: T -> K)
    ensures Dedup(init + [last], key) ==
      if key(last) in KeySet(init, key) then Dedup(init, key) else Dedup(init, key) + [last]
  {
    var xs := init + [last];
    assert xs[..|xs| - 1] == init;
    assert xs[|xs| - 1] == last;
  }

  /** No two records of a deduplicated batch share a key. */
  lemma {:induction false} DedupKeysDistinct<T, K>(rs: seq<T>, key: T -> K)
    ensures DistinctBy(Dedup(rs, key), key)
    decreases |rs|
  {
    if |rs| > 0 {
      var init, last := rs[..|rs| - 1], rs[|rs| - 1];
      assert rs == init + [last];
      DedupSnoc(init, last, key);
      DedupKeysDistinct(init, key);
      DedupKeySet(init, key);
      var d0 := Dedup(init, key);
      if key(last) !in KeySet(init, key) {
        var d := d0 + [last];
        forall i, j | 0 <= i < j < |d|
          ensures key(d[i]) != key(d[j])
        {
          if j == |d0| {
            assert key(d0[i]) in KeySet(d0, key);
          } else {
            assert d[i] == d0[i] && d[j] == d0[j];
          }
        }
      }
    }
  }

  /** The first record with key `k` is at `i`. */
  lemma FirstWithKeyAt<T, K>(rs: seq<T>, k: K, i: nat, key: T -> K)
    requires i < |rs| && key(rs[i]) == k
    requires forall j | 0 <= j < i :: key(rs[j]) != k
    ensures k in KeySet(rs, key) && FirstWithKey(rs, k, key) == i
  {
  }

  lemma FirstWithKeyOfPrefix<T, K>(init: seq<T>, last: T, k: K, key: T -> K)
    requires k in KeySet(init, key)
    ensures k in KeySet(init + [last], key)
    ensures FirstWithKey(init + [last], k, key) == FirstWithKey(init, k, key)
  {
    var xs := init + [last];
    assert forall j | 0 <= j < |init| :: xs[j] == init[j];
    FirstWithKeyAt(xs, k, FirstWithKey(init, k, key), key);
  }

  lemma FirstWithKeyOfLast<T, K>(init: seq<T>, last: T, key: T -> K)
    requires key(last) !in KeySet(init, key)
    ensures key(last) in KeySet(init + [last], key)
    ensures FirstWithKey(init + [last], key(last), key) == |init|
  {
    var xs := init + [last];
    assert forall j | 0 <= j < |init| :: xs[j] == init[j] && key(init[j]) in KeySet(init, key);
    FirstWithKeyAt(xs, key(last), |init|, key);
  }

  /** Every record of `d` is the first record of `rs` with its key. */
  predicate KeepsFirst<T(==), K(==)>(rs: seq<T>, d: seq<T>, key: T -> K) {
    forall j | 0 <= j < |d| :: key(d[j]) in KeySet(rs, key) && d[j] == rs[FirstWithKey(rs, key(d[j]), key)]
  }

  lemma KeepsFirstSnoc<T, K>(init: seq<T>, last: T, key: T -> K)
    requires KeepsFirst(init, Dedup(init, key), key)
    ensures KeepsFirst(init + [last], Dedup(init + [last], key), key)
  {
    var xs := init + [last];
    var d0 := Dedup(init, key);
    DedupSnoc(init, last, key);
    var d := Dedup(xs, key);
    forall j | 0 <= j < |d|
      ensures key(d[j]) in KeySet(xs, key) && d[j] == xs[FirstWithKey(xs, key(d[j]), key)]
    {
      if j < |d0| {
        assert d[j] == d0[j];
        FirstWithKeyOfPrefix(init, last, key(d0[j]), key);
        assert xs[FirstWithKey(init, key(d0[j]), key)] == init[FirstWithKey(init, key(d0[j]), key)];
      } else {
        assert d[j] == last;
        FirstWithKeyOfLast(init, last, key);
      }
    }
  }

  /** Each record kept is the first of the records with its key. */
  lemma {:induction false} DedupKeepsFirst<T, K>(rs: seq<T>, key: T -> K)
    ensures KeepsFirst(rs, Dedup(rs, key), key)
    decreases |rs|
  {
    if |rs| > 0 {
      var init, last := rs[..|rs| - 1], rs[|rs| - 1];
      assert rs == init + [last];
      DedupKeepsFirst(init, key);
      KeepsFirstSnoc(init, last, key);
    }
  }

  /** The records of `d` come in the order of their keys' first records in `rs`. */
  predicate InFirstOrder<T, K(==)>(rs: seq<T>, d: seq<T>, key: T -> K) {
    forall i, j | 0 <= i < j < |d| ::
      key(d[i]) in KeySet(rs, key) && key(d[j]) in KeySet(rs, key) &&
      FirstWithKey(rs, key(d[i]), key) < FirstWithKey(rs, key(d[j]), key)
  }

  lemma InFirstOrderSnoc<T, K>(init: seq<T>, last: T, key: T -> K)
    requires InFirstOrder(init, Dedup(init, key), key)
    ensures InFirstOrder(init + [last], Dedup(init + [last], key), key)
  {
    var xs := init + [last];
    var d0 := Dedup(init, key);
    DedupSnoc(init, last, key);
    DedupKeySet(init, key);
    var d := Dedup(xs, key);
    forall i, j | 0 <= i < j < |d|
      ensures key(d[i]) in KeySet(xs, key) && key(d[j]) in KeySet(xs, key) &&
              FirstWithKey(xs, key(d[i]), key) < FirstWithKey(xs, key(d[j]), key)
    {
      assert d[i] == d0[i];
      assert key(d0[i]) in KeySet(d0, key);
      FirstWithKeyOfPrefix(init, last, key(d0[i]), key);
      if j < |d0| {
        assert d[j] == d0[j];
        assert key(d0[j]) in KeySet(d0, key);
        FirstWithKeyOfPrefix(init, last, key(d0[j]), key);
      } else {
        assert d[j] == last;
        FirstWithKeyOfLast(init, last, key);
      }
    }
  }

  /** The kept records stay in document order: a record kept before another
      has its key's first occurrence earlier in the input. */
  lemma {:induction false} DedupKeepsOrder<T, K>(rs: seq<T>, key: T -> K)
    ensures InFirstOrder(rs, Dedup(rs, key), key)
    decreases |rs|
  {
    if |rs| > 0 {
      var init, last := rs[..|rs| - 1], rs[|rs| - 1];
      assert rs == init + [last];
      DedupKeepsOrder(init, key);
      InFirstOrderSnoc(init, last, key);
    }
  }

  /** One turn of the dedup loop: remember the record's key and keep the
      record when the key was not seen before. */
  method KeepIfNew<T, K(==)>(kept: seq<T>, seen: set<K>, ghost parsed: seq<T>, r: T, key: T -> K)
    returns (kept': seq<T>, seen': set<K>)
    requires kept == Dedup(parsed, key) && seen == KeySet(parsed, key)
    ensures kept' == Dedup(parsed + [r], key) && seen' == KeySet(parsed + [r], key)
  {
    DedupSnoc(parsed, r, key);
    KeySetSnoc(parsed, r, key);
    var k := key(r);
    kept', seen' := kept, seen;
    if k !in seen {
      seen' := seen + {k};
      kept' := kept + [r];
    }
  }
}
