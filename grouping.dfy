/** Bucketing a listing by a key while remembering the order in which keys first appear.
    JavaScript's `Map`, Python's `dict` and PHP's arrays all iterate in insertion order,
    which is the order these functions give. */
module Grouping {

  /** The distinct keys of es, in order of first appearance. */
  function Keys<E, K(==)>(es: seq<E>, key: E -> K): (ks: seq<K>)
    ensures forall i, j :: 0 <= i < j < |ks| ==> ks[i] != ks[j]
    ensures forall i :: 0 <= i < |es| ==> key(es[i]) in ks
    ensures forall k :: k in ks ==> exists i :: 0 <= i < |es| && key(es[i]) == k
  {
    if es == [] then []
    else
      var ks := Keys(es[..|es| - 1], key);
      var k := key(es[|es| - 1]);
      if k in ks then ks else ks + [k]
  }

  /** The elements of es whose key is k, in listing order. */
  function Bucket<E, K(==)>(es: seq<E>, key: E -> K, k: K): (b: seq<E>)
    ensures forall i :: 0 <= i < |b| ==> key(b[i]) == k
  {
    if es == [] then []
    else Bucket(es[..|es| - 1], key, k) + (if key(es[|es| - 1]) == k then [es[|es| - 1]] else [])
  }

  /** The concatenation of emit(e) for the elements e of es, in order. */
  function Collect<E, T>(es: seq<E>, emit: E -> seq<T>): seq<T>
  {
    if es == [] then []
    else Collect(es[..|es| - 1], emit) + emit(es[|es| - 1])
  }

  /** What emit produces for each bucket, bucket after bucket in the order of ks. */
  function PerKey<E, K(==), T>(es: seq<E>, key: E -> K, ks: seq<K>, emit: E -> seq<T>): seq<T>
  {
    if ks == [] then []
    else PerKey(es, key, ks[..|ks| - 1], emit) + Collect(Bucket(es, key, ks[|ks| - 1]), emit)
  }

  lemma {:induction false} KeysSnoc<E, K>(es: seq<E>, x: E, key: E -> K)
    ensures Keys(es + [x], key) == if key(x) in Keys(es, key) then Keys(es, key) else Keys(es, key) + [key(x)]
  {
    assert (es + [x])[..|es|] == es;
  }

  /** A key that no element has has an empty bucket. */
  lemma {:induction false} BucketOfAbsentKey<E, K>(es: seq<E>, key: E -> K, k: K)
    requires k !in Keys(es, key)
    ensures Bucket(es, key, k) == []
  {
    if es != [] {
      BucketOfAbsentKey(es[..|es| - 1], key, k);
    }
  }

  lemma {:induction false} CollectSnoc<E, T>(es: seq<E>, x: E, emit: E -> seq<T>)
    ensures Collect(es + [x], emit) == Collect(es, emit) + emit(x)
  {
    assert (es + [x])[..|es|] == es;
  }

  lemma {:induction false} PerKeyOfEmpty<E, K, T>(key: E -> K, ks: seq<K>, emit: E -> seq<T>)
    ensures PerKey([], key, ks, emit) == []
  {
    if ks != [] {
      PerKeyOfEmpty(key, ks[..|ks| - 1], emit);
    }
  }

  /** Appending x to the listing adds emit(x) to exactly one bucket's output, if its key is listed. */
  lemma {:induction false} PerKeySnoc<E, K, T>(es: seq<E>, x: E, key: E -> K, ks: seq<K>, emit: E -> seq<T>)
    requires forall i, j :: 0 <= i < j < |ks| ==> ks[i] != ks[j]
    ensures multiset(PerKey(es + [x], key, ks, emit))
         == multiset(PerKey(es, key, ks, emit)) + (if key(x) in ks then multiset(emit(x)) else multiset{})
  {
    if ks != [] {
      var init, k := ks[..|ks| - 1], ks[|ks| - 1];
      assert ks == init + [k];
      PerKeySnoc(es, x, key, init, emit);
      BucketSnoc(es, x, key, k);
      var b := Bucket(es, key, k);
      var before := PerKey(es, key, init, emit);
      var after := PerKey(es + [x], key, init, emit);
      assert PerKey(es, key, ks, emit) == before + Collect(b, emit);
      if key(x) == k {
        assert key(x) !in init && key(x) in ks;
        CollectSnoc(b, x, emit);
        assert PerKey(es + [x], key, ks, emit) == after + (Collect(b, emit) + emit(x));
        HitStep(after, before, Collect(b, emit), emit(x));
      } else {
        assert key(x) in ks <==> key(x) in init;
        assert PerKey(es + [x], key, ks, emit) == after + Collect(b, emit);
        MissStep(after, before, Collect(b, emit), if key(x) in init then multiset(emit(x)) else multiset{});
      }
    }
  }

  lemma {:induction false} HitStep<T>(after: seq<T>, before: seq<T>, c: seq<T>, e: seq<T>)
    requires multiset(after) == multiset(before) + multiset{}
    ensures multiset(after + (c + e)) == multiset(before + c) + multiset(e)
  {
    calc {
      multiset(after + (c + e));
      multiset(after) + (multiset(c) + multiset(e));
      (multiset(before) + multiset(c)) + multiset(e);
    }
  }

  lemma {:induction false} MissStep<T>(after: seq<T>, before: seq<T>, c: seq<T>, extra: multiset<T>)
    requires multiset(after) == multiset(before) + extra
    ensures multiset(after + c) == multiset(before + c) + extra
  {
    calc {
      multiset(after + c);
      (multiset(before) + extra) + multiset(c);
      (multiset(before) + multiset(c)) + extra;
    }
  }

  lemma {:induction false} BucketSnoc<E, K>(es: seq<E>, x: E, key: E -> K, k: K)
    ensures key(x) == k ==> Bucket(es + [x], key, k) == Bucket(es, key, k) + [x]
    ensures key(x) != k ==> Bucket(es + [x], key, k) == Bucket(es, key, k)
  {
    assert (es + [x])[..|es|] == es;
  }

  /** Bucketing by every key of the listing and emitting bucket by bucket loses and
      duplicates nothing: the output is a permutation of emitting element by element. */
  lemma {:induction false} PerKeyPermutation<E, K, T>(es: seq<E>, key: E -> K, ks: seq<K>, emit: E -> seq<T>)
    requires forall i, j :: 0 <= i < j < |ks| ==> ks[i] != ks[j]
    requires forall i :: 0 <= i < |es| ==> key(es[i]) in ks
    ensures multiset(PerKey(es, key, ks, emit)) == multiset(Collect(es, emit))
  {
    if es == [] {
      PerKeyOfEmpty(key, ks, emit);
    } else {
      var init, x := es[..|es| - 1], es[|es| - 1];
      assert es == init + [x];
      PerKeyPermutation(init, key, ks, emit);
      PerKeySnoc(init, x, key, ks, emit);
    }
  }
}
