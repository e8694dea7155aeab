/**
 * Totals and group-by as the dashboard and analytics handlers compute them: a `reduce`
 * that adds a weight left to right, and a `forEach` that fills a JavaScript `Map` whose
 * keys keep the order in which they were first seen.
 */
module Grouping {
  import Seqs

  /** `s.reduce((sum, x) => sum + w(x), 0)`. */
  function Sum<T>(s: seq<T>, w: T -> real): real
  {
    if s == [] then 0.0 else Sum(s[..|s| - 1], w) + w(s[|s| - 1])
  }

  /** The same as `Sum` for whole numbers, such as the counts of a breakdown. */
  function NatSum<T>(s: seq<T>, n: T -> nat): nat
  {
    if s == [] then 0 else NatSum(s[..|s| - 1], n) + n(s[|s| - 1])
  }

  /** Some element with key `a` comes before every element with key `b`. */
  ghost predicate OccursBefore<T, K>(s: seq<T>, key: T -> K, a: K, b: K)
  {
    exists i :: 0 <= i < |s| && key(s[i]) == a && forall j :: 0 <= j <= i ==> key(s[j]) != b
  }

  /** The distinct keys of `s`, in the order of their first occurrence. */
  function Keys<T, K(==,!new)>(s: seq<T>, key: T -> K): (r: seq<K>)
    ensures Seqs.NoDuplicates(r)
    ensures forall k :: k in r <==> exists i :: 0 <= i < |s| && key(s[i]) == k
    ensures forall x, y :: 0 <= x < y < |r| ==> OccursBefore(s, key, r[x], r[y])
  {
    if s == [] then []
    else
      var init := s[..|s| - 1];
      var ks := Keys(init, key);
      assert forall i :: 0 <= i < |init| ==> s[i] == init[i];
      var k := key(s[|s| - 1]);
      if k in ks then
        KeysOrderExtends(s, key, ks);
        ks
      else
        var r := ks + [k];
        assert forall i, j :: 0 <= i < j < |r| ==> r[i] != r[j] by {
          forall i, j | 0 <= i < j < |r| ensures r[i] != r[j] {
            if j == |ks| {
              assert r[i] == ks[i];
            }
          }
        }
        KeysOrderExtends(s, key, ks);
        assert forall x, y :: 0 <= x < y < |r| ==> OccursBefore(s, key, r[x], r[y]) by {
          forall x, y | 0 <= x < y < |r| ensures OccursBefore(s, key, r[x], r[y]) {
            if y == |ks| {
              assert r[x] == ks[x] && ks[x] in ks;
              var i :| 0 <= i < |init| && key(init[i]) == ks[x];
              assert key(s[i]) == r[x];
            } else {
              assert r[x] == ks[x] && r[y] == ks[y];
            }
          }
        }
        r
  }

  /** The order of the keys of all but the last element carries over to the whole sequence. */
  lemma KeysOrderExtends<T, K>(s: seq<T>, key: T -> K, ks: seq<K>)
    requires s != []
    requires forall x, y :: 0 <= x < y < |ks| ==> OccursBefore(s[..|s| - 1], key, ks[x], ks[y])
    ensures forall x, y :: 0 <= x < y < |ks| ==> OccursBefore(s, key, ks[x], ks[y])
  {
    var init := s[..|s| - 1];
    forall x, y | 0 <= x < y < |ks| ensures OccursBefore(s, key, ks[x], ks[y]) {
      assert OccursBefore(init, key, ks[x], ks[y]);
      var i :| 0 <= i < |init| && key(init[i]) == ks[x] && forall j :: 0 <= j <= i ==> key(init[j]) != ks[y];
      assert forall j :: 0 <= j <= i ==> s[j] == init[j];
    }
  }

  /** The total weight of the elements whose key is `k`. */
  function SumFor<T, K(==,!new)>(s: seq<T>, key: T -> K, k: K, w: T -> real): (r: real)
    ensures (forall i :: 0 <= i < |s| ==> key(s[i]) != k) ==> r == 0.0
  {
    if s == [] then 0.0
    else
      var init := s[..|s| - 1];
      assert forall i :: 0 <= i < |init| ==> s[i] == init[i];
      SumFor(init, key, k, w) + (if key(s[|s| - 1]) == k then w(s[|s| - 1]) else 0.0)
  }

  /** The number of elements whose key is `k`. */
  function CountFor<T, K(==,!new)>(s: seq<T>, key: T -> K, k: K): (r: nat)
    ensures r <= |s|
    ensures r == 0 <==> forall i :: 0 <= i < |s| ==> key(s[i]) != k
  {
    if s == [] then 0
    else
      var init := s[..|s| - 1];
      assert forall i :: 0 <= i < |init| ==> s[i] == init[i];
      CountFor(init, key, k) + (if key(s[|s| - 1]) == k then 1 else 0)
  }

  /** The group totals added up over the keys `ks`. */
  function TotalOver<T, K(==,!new)>(ks: seq<K>, s: seq<T>, key: T -> K, w: T -> real): real
  {
    if ks == [] then 0.0 else TotalOver(ks[..|ks| - 1], s, key, w) + SumFor(s, key, ks[|ks| - 1], w)
  }

  /** The group counts added up over the keys `ks`. */
  function CountOver<T, K(==,!new)>(ks: seq<K>, s: seq<T>, key: T -> K): nat
  {
    if ks == [] then 0 else CountOver(ks[..|ks| - 1], s, key) + CountFor(s, key, ks[|ks| - 1])
  }

  /** Adding one element to `s` adds its weight to the total over distinct keys exactly when its key is among them. */
  lemma {:induction false} TotalOverStep<T, K(!new)>(ks: seq<K>, s: seq<T>, x: T, key: T -> K, w: T -> real)
    requires Seqs.NoDuplicates(ks)
    ensures TotalOver(ks, s + [x], key, w) == TotalOver(ks, s, key, w) + (if key(x) in ks then w(x) else 0.0)
  {
    assert (s + [x])[..|s|] == s;
    if ks != [] {
      var init := ks[..|ks| - 1];
      var last := ks[|ks| - 1];
      assert ks == init + [last];
      assert Seqs.NoDuplicates(init) by {
        forall i, j | 0 <= i < j < |init| ensures init[i] != init[j] {
          assert init[i] == ks[i] && init[j] == ks[j];
        }
      }
      assert last !in init by {
        forall i | 0 <= i < |init| ensures init[i] != last {
          assert init[i] == ks[i];
        }
      }
      TotalOverStep(init, s, x, key, w);
    }
  }

  /** Adding one element to `s` adds one to the count over distinct keys exactly when its key is among them. */
  lemma {:induction false} CountOverStep<T, K(!new)>(ks: seq<K>, s: seq<T>, x: T, key: T -> K)
    requires Seqs.NoDuplicates(ks)
    ensures CountOver(ks, s + [x], key) == CountOver(ks, s, key) + (if key(x) in ks then 1 else 0)
  {
    assert (s + [x])[..|s|] == s;
    if ks != [] {
      var init := ks[..|ks| - 1];
      var last := ks[|ks| - 1];
      assert ks == init + [last];
      assert Seqs.NoDuplicates(init) by {
        forall i, j | 0 <= i < j < |init| ensures init[i] != init[j] {
          assert init[i] == ks[i] && init[j] == ks[j];
        }
      }
      assert last !in init by {
        forall i | 0 <= i < |init| ensures init[i] != last {
          assert init[i] == ks[i];
        }
      }
      CountOverStep(init, s, x, key);
    }
  }

  /** The group totals add up to the overall total: grouping loses and duplicates nothing. */
  lemma {:induction false} SumsPartitionTotal<T, K(!new)>(s: seq<T>, key: T -> K, w: T -> real)
    ensures TotalOver(Keys(s, key), s, key, w) == Sum(s, w)
  {
    if s != [] {
      var init := s[..|s| - 1];
      var x := s[|s| - 1];
      assert s == init + [x];
      SumsPartitionTotal(init, key, w);
      var ks := Keys(init, key);
      TotalOverStep(ks, init, x, key, w);
      assert Sum(s, w) == Sum(init, w) + w(x);
      if key(x) in ks {
        assert Keys(s, key) == ks;
      } else {
        assert Keys(s, key) == ks + [key(x)];
        NewKeyTotal(init, x, key, w);
      }
    }
  }

  /** The group of a key first seen in the last element holds only that element. */
  lemma NewKeyTotal<T, K(!new)>(init: seq<T>, x: T, key: T -> K, w: T -> real)
    requires key(x) !in Keys(init, key)
    ensures TotalOver(Keys(init, key) + [key(x)], init + [x], key, w)
         == TotalOver(Keys(init, key), init + [x], key, w) + w(x)
  {
    var ks := Keys(init, key);
    assert (ks + [key(x)])[..|ks|] == ks;
    assert forall i :: 0 <= i < |init| ==> key(init[i]) != key(x);
    assert (init + [x])[..|init|] == init;
    assert SumFor(init, key, key(x), w) == 0.0;
  }

  /** The group counts add up to the number of elements. */
  lemma {:induction false} CountsPartitionLength<T, K(!new)>(s: seq<T>, key: T -> K)
    ensures CountOver(Keys(s, key), s, key) == |s|
  {
    if s != [] {
      var init := s[..|s| - 1];
      var x := s[|s| - 1];
      assert s == init + [x];
      CountsPartitionLength(init, key);
      var ks := Keys(init, key);
      CountOverStep(ks, init, x, key);
      if key(x) !in ks {
        assert Keys(s, key) == ks + [key(x)];
        assert (ks + [key(x)])[..|ks|] == ks;
        assert forall i :: 0 <= i < |init| ==> key(init[i]) != key(x);
      }
    }
  }

  /** Entries that carry the group totals of `keys` add up to the same as the groups. */
  lemma {:induction false} EntryTotals<E, T, K(!new)>(
    entries: seq<E>, amount: E -> real, keys: seq<K>, s: seq<T>, key: T -> K, w: T -> real)
    requires |entries| == |keys|
    requires forall j :: 0 <= j < |entries| ==> amount(entries[j]) == SumFor(s, key, keys[j], w)
    ensures Sum(entries, amount) == TotalOver(keys, s, key, w)
  {
    if entries != [] {
      EntryTotals(entries[..|entries| - 1], amount, keys[..|keys| - 1], s, key, w);
    }
  }

  /** Entries that carry the group sizes of `keys` add up to the same as the groups. */
  lemma {:induction false} EntryCounts<E, T, K(!new)>(entries: seq<E>, count: E -> nat, keys: seq<K>, s: seq<T>, key: T -> K)
    requires |entries| == |keys|
    requires forall j :: 0 <= j < |entries| ==> count(entries[j]) == CountFor(s, key, keys[j])
    ensures NatSum(entries, count) == CountOver(keys, s, key)
  {
    if entries != [] {
      EntryCounts(entries[..|entries| - 1], count, keys[..|keys| - 1], s, key);
    }
  }

  /**
   * The `forEach` that fills a `Map` from key to running total and count: `keys` is the
   * map's iteration order, and each entry holds its group's total and size.
   */
  method Tally<T, K(==,!new)>(s: seq<T>, key: T -> K, w: T -> real) returns (keys: seq<K>, sums: map<K, real>, counts: map<K, nat>)
    ensures keys == Keys(s, key)
    ensures forall k :: k in sums <==> k in keys
    ensures forall k :: k in counts <==> k in keys
    ensures forall k :: k in sums ==> sums[k] == SumFor(s, key, k, w)
    ensures forall k :: k in counts ==> counts[k] == CountFor(s, key, k)
  {
    keys, sums, counts := [], map[], map[];
    for i := 0 to |s|
      invariant keys == Keys(s[..i], key)
      invariant forall k :: k in sums <==> k in keys
      invariant forall k :: k in counts <==> k in keys
      invariant forall k :: k in sums ==> sums[k] == SumFor(s[..i], key, k, w)
      invariant forall k :: k in counts ==> counts[k] == CountFor(s[..i], key, k)
    {
      keys, sums, counts := TallyStep(s, i, key, w, keys, sums, counts);
    }
    assert s[..|s|] == s;
  }

  /** One call of the `forEach` callback: the maps for `s[..i]` become the maps for `s[..i + 1]`. */
  method TallyStep<T, K(==,!new)>(s: seq<T>, i: nat, key: T -> K, w: T -> real, keys: seq<K>, sums: map<K, real>, counts: map<K, nat>)
    returns (keys': seq<K>, sums': map<K, real>, counts': map<K, nat>)
    requires i < |s|
    requires keys == Keys(s[..i], key)
    requires forall k :: k in sums <==> k in keys
    requires forall k :: k in counts <==> k in keys
    requires forall k :: k in sums ==> sums[k] == SumFor(s[..i], key, k, w)
    requires forall k :: k in counts ==> counts[k] == CountFor(s[..i], key, k)
    ensures keys' == Keys(s[..i + 1], key)
    ensures forall k :: k in sums' <==> k in keys'
    ensures forall k :: k in counts' <==> k in keys'
    ensures forall k :: k in sums' ==> sums'[k] == SumFor(s[..i + 1], key, k, w)
    ensures forall k :: k in counts' ==> counts'[k] == CountFor(s[..i + 1], key, k)
  {
    var x := s[i];
    PrefixKeys(s, i, key);
    if key(x) in sums {
      keys' := keys;
      sums' := sums[key(x) := sums[key(x)] + w(x)];
      counts' := counts[key(x) := counts[key(x)] + 1];
    } else {
      keys' := keys + [key(x)];
      sums' := sums[key(x) := w(x)];
      counts' := counts[key(x) := 1];
    }
    forall k | k in sums' ensures sums'[k] == SumFor(s[..i + 1], key, k, w) {
      PrefixSum(s, i, key, k, w);
    }
    forall k | k in counts' ensures counts'[k] == CountFor(s[..i + 1], key, k) {
      PrefixCount(s, i, key, k);
    }
  }

  /** The keys of a prefix extended by one element. */
  lemma PrefixKeys<T, K(!new)>(s: seq<T>, i: nat, key: T -> K)
    requires i < |s|
    ensures Keys(s[..i + 1], key) == if key(s[i]) in Keys(s[..i], key) then Keys(s[..i], key) else Keys(s[..i], key) + [key(s[i])]
  {
    assert s[..i + 1][..i] == s[..i];
  }

  /** The total for `k` over a prefix extended by one element. */
  lemma PrefixSum<T, K(!new)>(s: seq<T>, i: nat, key: T -> K, k: K, w: T -> real)
    requires i < |s|
    ensures SumFor(s[..i + 1], key, k, w) == SumFor(s[..i], key, k, w) + (if key(s[i]) == k then w(s[i]) else 0.0)
    ensures k !in Keys(s[..i], key) ==> SumFor(s[..i], key, k, w) == 0.0
  {
    assert s[..i + 1][..i] == s[..i];
    assert forall j :: 0 <= j < i ==> s[..i][j] == s[j];
  }

  /** The count for `k` over a prefix extended by one element. */
  lemma PrefixCount<T, K(!new)>(s: seq<T>, i: nat, key: T -> K, k: K)
    requires i < |s|
    ensures CountFor(s[..i + 1], key, k) == CountFor(s[..i], key, k) + (if key(s[i]) == k then 1 else 0)
    ensures k !in Keys(s[..i], key) ==> CountFor(s[..i], key, k) == 0
  {
    assert s[..i + 1][..i] == s[..i];
    assert forall j :: 0 <= j < i ==> s[..i][j] == s[j];
  }
}
