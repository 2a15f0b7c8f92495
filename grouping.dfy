/** Grouping a list by a key, the shape of every per-driver / per-lap accumulator in the system:
    a JavaScript `reduce` into `Record<key, T[]>` or a Python loop filling a dict of lists.
    Both keep their keys in first-appearance order and each group in input order. */
module Grouping {

  /** The distinct keys of s in order of first appearance (`Object.keys` / dict order, `new Set`). */
  function Keys<T, K(==)>(s: seq<T>, key: T -> K): seq<K>
  {
    if s == [] then []
    else
      var ks := Keys(s[..|s| - 1], key);
      if key(s[|s| - 1]) in ks then ks else ks + [key(s[|s| - 1])]
  }

  /** The elements of s whose key is k, in input order (one accumulator list). */
  function Group<T, K(==)>(s: seq<T>, key: T -> K, k: K): seq<T>
  {
    if s == [] then []
    else Group(s[..|s| - 1], key, k) + (if key(s[|s| - 1]) == k then [s[|s| - 1]] else [])
  }

  predicate Distinct<K(==)>(ks: seq<K>)
  {
    forall i, j :: 0 <= i < j < |ks| ==> ks[i] != ks[j]
  }

  /** Each key is listed once, and exactly the keys that occur in s are listed. */
  lemma {:induction false} KeysCorrect<T, K>(s: seq<T>, key: T -> K)
    ensures Distinct(Keys(s, key))
    ensures forall k :: k in Keys(s, key) <==> exists i :: 0 <= i < |s| && key(s[i]) == k
    decreases |s|
  {
    if s != [] {
      var init := s[..|s| - 1];
      KeysCorrect(init, key);
      forall k ensures k in Keys(s, key) <==> exists i :: 0 <= i < |s| && key(s[i]) == k {
        if k in Keys(init, key) {
          var i :| 0 <= i < |init| && key(init[i]) == k;
          assert key(s[i]) == k;
        }
        if exists i :: 0 <= i < |s| && key(s[i]) == k {
          var i :| 0 <= i < |s| && key(s[i]) == k;
          if i < |init| {
            assert key(init[i]) == k;
          }
        }
      }
    }
  }

  /** Appending an element adds its key at the end unless the key is already listed. */
  lemma KeysSnoc<T, K>(s: seq<T>, x: T, key: T -> K)
    ensures Keys(s + [x], key) == if key(x) in Keys(s, key) then Keys(s, key) else Keys(s, key) + [key(x)]
  {
    assert (s + [x])[..|s|] == s;
  }

  /** One more element of s. */
  lemma SliceSnoc<T>(s: seq<T>, i: nat)
    requires i < |s|
    ensures s[..i + 1] == s[..i] + [s[i]]
  {
  }

  lemma KeysDistinct<T, K>(s: seq<T>, key: T -> K)
    ensures Distinct(Keys(s, key))
  {
    KeysCorrect(s, key);
  }

  lemma {:induction false} KeysLength<T, K>(s: seq<T>, key: T -> K)
    ensures |Keys(s, key)| <= |s|
    decreases |s|
  {
    if s != [] {
      KeysLength(s[..|s| - 1], key);
    }
  }

  /** First-appearance order: the keys met in any prefix of s come first, in the same order. */
  lemma {:induction false} KeysOfPrefix<T, K>(s: seq<T>, key: T -> K, n: nat)
    requires n <= |s|
    ensures |Keys(s[..n], key)| <= |Keys(s, key)|
    ensures Keys(s, key)[..|Keys(s[..n], key)|] == Keys(s[..n], key)
    decreases |s| - n
  {
    if n < |s| {
      KeysOfPrefix(s, key, n + 1);
      assert s[..n + 1][..n] == s[..n];
    } else {
      assert s[..n] == s;
    }
  }

  /** Every element lands in the group of its own key and in no other. */
  lemma {:induction false} GroupMembers<T, K>(s: seq<T>, key: T -> K, k: K)
    ensures forall x :: x in Group(s, key, k) ==> x in s && key(x) == k
    ensures forall x :: x in s && key(x) == k ==> x in Group(s, key, k)
    ensures multiset(Group(s, key, k)) <= multiset(s)
    decreases |s|
  {
    if s != [] {
      GroupMembers(s[..|s| - 1], key, k);
      assert s == s[..|s| - 1] + [s[|s| - 1]];
    }
  }

  lemma {:induction false} GroupEmpty<T, K>(s: seq<T>, key: T -> K, k: K)
    ensures Group(s, key, k) == [] <==> k !in Keys(s, key)
  {
    KeysCorrect(s, key);
    GroupMembers(s, key, k);
    if Group(s, key, k) != [] {
      var x := Group(s, key, k)[0];
      assert x in Group(s, key, k);
      assert x in s;
      var i :| 0 <= i < |s| && s[i] == x;
      assert key(s[i]) == k;
    }
    if k in Keys(s, key) {
      var i :| 0 <= i < |s| && key(s[i]) == k;
      assert s[i] in s;
    }
  }

  /** Every listed key has a non-empty group. */
  lemma KeyGroupsNonEmpty<T, K>(s: seq<T>, key: T -> K)
    ensures forall k :: k in Keys(s, key) ==> Group(s, key, k) != []
  {
    forall k | k in Keys(s, key) ensures Group(s, key, k) != [] {
      GroupEmpty(s, key, k);
    }
  }

  /** A non-empty sequence has at least one key. */
  lemma KeysNonEmpty<T, K>(s: seq<T>, key: T -> K)
    ensures Keys(s, key) == [] <==> s == []
  {
    if s != [] {
      KeysCorrect(s, key);
      assert 0 <= 0 < |s| && key(s[0]) == key(s[0]);
    }
  }

  /** Total size of the groups of the keys ks. */
  function SumSizes<T, K(==)>(s: seq<T>, key: T -> K, ks: seq<K>): nat
  {
    if ks == [] then 0 else SumSizes(s, key, ks[..|ks| - 1]) + |Group(s, key, ks[|ks| - 1])|
  }

  function Occurrences<K(==)>(ks: seq<K>, k: K): nat
  {
    if ks == [] then 0 else Occurrences(ks[..|ks| - 1], k) + (if ks[|ks| - 1] == k then 1 else 0)
  }

  lemma {:induction false} OccurrencesDistinct<K>(ks: seq<K>, k: K)
    requires Distinct(ks)
    ensures Occurrences(ks, k) == if k in ks then 1 else 0
    decreases |ks|
  {
    if ks != [] {
      OccurrencesDistinct(ks[..|ks| - 1], k);
      assert ks == ks[..|ks| - 1] + [ks[|ks| - 1]];
    }
  }

  lemma {:induction false} SumSizesStep<T, K>(s: seq<T>, key: T -> K, ks: seq<K>)
    requires s != []
    ensures SumSizes(s, key, ks) == SumSizes(s[..|s| - 1], key, ks) + Occurrences(ks, key(s[|s| - 1]))
    decreases |ks|
  {
    if ks != [] {
      SumSizesStep(s, key, ks[..|ks| - 1]);
    }
  }

  /** Every element lands in exactly one group: the group sizes add up to the input length. */
  lemma {:induction false} GroupSizesSum<T, K>(s: seq<T>, key: T -> K)
    ensures SumSizes(s, key, Keys(s, key)) == |s|
    decreases |s|
  {
    if s != [] {
      var init, x := s[..|s| - 1], s[|s| - 1];
      var ks := Keys(init, key);
      GroupSizesSum(init, key);
      KeysCorrect(init, key);
      SumSizesStep(s, key, ks);
      OccurrencesDistinct(ks, key(x));
      if key(x) !in ks {
        GroupEmpty(init, key, key(x));
      }
    }
  }

  /** Counts the elements per key in a dictionary filled in input order (`counts[k] += 1` after
      creating the entry on first sight); `order` is the insertion order of the keys. */
  method CountBy<T, K(==)>(s: seq<T>, key: T -> K) returns (counts: map<K, nat>, order: seq<K>)
    ensures order == Keys(s, key)
    ensures forall k :: k in counts <==> k in order
    ensures forall k :: k in counts ==> counts[k] == |Group(s, key, k)|
  {
    counts, order := map[], [];
    var i := 0;
    while i < |s|
      invariant 0 <= i <= |s|
      invariant order == Keys(s[..i], key)
      invariant forall k :: k in counts <==> k in order
      invariant forall k :: k in counts ==> counts[k] == |Group(s[..i], key, k)|
    {
      var k := key(s[i]);
      assert s[..i + 1][..i] == s[..i];
      if k !in counts {
        GroupEmpty(s[..i], key, k);
        counts := counts[k := 0];
        order := order + [k];
      }
      counts := counts[k := counts[k] + 1];
      i := i + 1;
    }
    assert s[..|s|] == s;
  }

  /** In a sequence without repetitions every value occurs at most once. */
  lemma {:induction false} DistinctMultiplicity<T>(s: seq<T>, x: T)
    requires Distinct(s)
    ensures multiset(s)[x] <= 1
    decreases |s|
  {
    if s != [] {
      var init := s[..|s| - 1];
      DistinctMultiplicity(init, x);
      assert s == init + [s[|s| - 1]];
      assert x == s[|s| - 1] ==> x !in init;
    }
  }

  /** A value at two positions occurs at least twice. */
  lemma {:induction false} RepeatedMultiplicity<T>(s: seq<T>, i: nat, j: nat)
    requires i < j < |s| && s[i] == s[j]
    ensures multiset(s)[s[i]] >= 2
  {
    assert s == s[..j] + [s[j]] + s[j + 1..];
    assert s[i] in s[..j];
  }

  /** Appends every element to the list of its key, creating the list on first sight (a `reduce`
      into `Record<key, T[]>`, a dict of lists filled in a loop); `order` lists the keys as they
      were first met, the insertion order of the dictionary. */
  method GroupInto<T, K(==)>(s: seq<T>, key: T -> K) returns (groups: map<K, seq<T>>, order: seq<K>)
    ensures order == Keys(s, key)
    ensures forall k :: k in groups <==> k in order
    ensures forall k :: k in groups ==> groups[k] == Group(s, key, k)
  {
    groups, order := map[], [];
    var i := 0;
    while i < |s|
      invariant 0 <= i <= |s|
      invariant order == Keys(s[..i], key)
      invariant forall k :: k in groups <==> k in order
      invariant forall k :: k in groups ==> groups[k] == Group(s[..i], key, k)
    {
      var k := key(s[i]);
      assert s[..i + 1][..i] == s[..i];
      if k !in groups {
        GroupEmpty(s[..i], key, k);
        groups := groups[k := []];
        order := order + [k];
      }
      groups := groups[k := groups[k] + [s[i]]];
      i := i + 1;
    }
    assert s[..|s|] == s;
  }
}
