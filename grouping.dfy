/** Group-by into an object: `xs.reduce((acc, x) => { if (!acc[k]) acc[k] = [];
    acc[k].push(x); return acc; }, {})` where `k` is the key of `x`. The
    object's entries come out in the order their keys were first created. */
module Grouping {
  import opened Text

  datatype Group<K, T> = Group(key: K, items: seq<T>)

  /** The distinct keys of `xs`, in order of first occurrence. */
  function FirstKeys<K(==), T>(xs: seq<T>, key: T -> K): seq<K> {
    if xs == [] then []
    else
      var ks := FirstKeys(DropLast(xs), key);
      if key(Last(xs)) in ks then ks else ks + [key(Last(xs))]
  }

  /** The elements of `xs` whose key is `k`, in order. */
  function Members<K(==), T>(xs: seq<T>, key: T -> K, k: K): seq<T> {
    if xs == [] then []
    else Members(DropLast(xs), key, k) + (if key(Last(xs)) == k then [Last(xs)] else [])
  }

  /** The grouping as one entry per key, in key order. */
  function Groups<K(==), T>(xs: seq<T>, key: T -> K): (gs: seq<Group<K, T>>)
    ensures |gs| == |FirstKeys(xs, key)|
    ensures forall i :: 0 <= i < |gs| ==> gs[i] == Group(FirstKeys(xs, key)[i], Members(xs, key, FirstKeys(xs, key)[i]))
  {
    var ks := FirstKeys(xs, key);
    seq(|ks|, i requires 0 <= i < |ks| => Group(ks[i], Members(xs, key, ks[i])))
  }

  /** The reduce, with the accumulator object as a map and the order in
      which its keys were created. */
  method GroupBy<K(==), T>(xs: seq<T>, key: T -> K) returns (groups: seq<Group<K, T>>)
    ensures groups == Groups(xs, key)
  {
    var acc: map<K, seq<T>> := map[];
    var keys: seq<K> := [];
    var i := 0;
    while i < |xs|
      invariant i <= |xs|
      invariant keys == FirstKeys(xs[..i], key)
      invariant forall k :: k in acc <==> k in keys
      invariant forall k :: k in acc ==> acc[k] == Members(xs[..i], key, k)
    {
      MembersStep(xs, key, i);
      var k := key(xs[i]);
      if k !in acc {
        MembersOfAbsentKey(xs[..i], key, k);
        acc := acc[k := []];
        keys := keys + [k];
      }
      ghost var before := acc;
      assert before[k] == Members(xs[..i], key, k);
      acc := acc[k := acc[k] + [xs[i]]];
      forall k' | k' in acc
        ensures acc[k'] == Members(xs[..i + 1], key, k')
      {
        if k' != k {
          assert acc[k'] == before[k'];
        }
      }
      i := i + 1;
    }
    assert xs[..i] == xs;
    groups := seq(|keys|, j requires 0 <= j < |keys| => Group(keys[j], acc[keys[j]]));
  }

  lemma MembersStep<K, T>(xs: seq<T>, key: T -> K, i: nat)
    requires i < |xs|
    ensures FirstKeys(xs[..i + 1], key) ==
      if key(xs[i]) in FirstKeys(xs[..i], key) then FirstKeys(xs[..i], key)
      else FirstKeys(xs[..i], key) + [key(xs[i])]
    ensures forall k :: Members(xs[..i + 1], key, k) == Members(xs[..i], key, k) + (if key(xs[i]) == k then [xs[i]] else [])
  {
    PrefixStep(xs, i);
  }

  /** A key no element carries has an empty group. */
  lemma {:induction false} MembersOfAbsentKey<K, T>(xs: seq<T>, key: T -> K, k: K)
    requires k !in FirstKeys(xs, key)
    ensures Members(xs, key, k) == []
  {
    if xs != [] {
      MembersOfAbsentKey(DropLast(xs), key, k);
    }
  }

  /** Every key appears once. */
  lemma {:induction false} FirstKeysDistinct<K, T>(xs: seq<T>, key: T -> K)
    ensures forall i, j :: 0 <= i < j < |FirstKeys(xs, key)| ==> FirstKeys(xs, key)[i] != FirstKeys(xs, key)[j]
  {
    if xs != [] {
      var ks := FirstKeys(DropLast(xs), key);
      FirstKeysDistinct(DropLast(xs), key);
      var k := key(Last(xs));
      if k !in ks {
        forall i, j | 0 <= i < j < |ks| + 1
          ensures (ks + [k])[i] != (ks + [k])[j]
        {
          assert (ks + [k])[i] == ks[i] && ks[i] in ks;
          if j == |ks| {
            assert (ks + [k])[j] == k;
          } else {
            assert (ks + [k])[j] == ks[j];
          }
        }
      }
    }
  }

  /** Exactly the keys of the elements appear. */
  lemma {:induction false} FirstKeysSpec<K, T>(xs: seq<T>, key: T -> K)
    ensures forall k :: k in FirstKeys(xs, key) <==> exists x :: x in xs && key(x) == k
  {
    if xs != [] {
      var init := DropLast(xs);
      FirstKeysSpec(init, key);
      assert xs == init + [Last(xs)];
      forall k
        ensures k in FirstKeys(xs, key) <==> exists x :: x in xs && key(x) == k
      {
        if k in FirstKeys(xs, key) {
          if k == key(Last(xs)) {
            assert Last(xs) in xs;
          } else {
            assert k in FirstKeys(init, key);
            var x :| x in init && key(x) == k;
            assert x in xs;
          }
        }
        if k !in FirstKeys(xs, key) {
          forall x | x in xs
            ensures key(x) != k
          {
            assert k !in FirstKeys(init, key);
            if x != Last(xs) {
              assert x in init;
            }
          }
        }
      }
    }
  }

  /** A group holds, in order, exactly the elements with its key: it is a
      subsequence of the input, and it is not empty when the key occurs. */
  lemma {:induction false} MembersSpec<K, T>(xs: seq<T>, key: T -> K, k: K)
    ensures IsSubsequence(Members(xs, key, k), xs)
    ensures forall x :: x in Members(xs, key, k) <==> x in xs && key(x) == k
    ensures k in FirstKeys(xs, key) ==> Members(xs, key, k) != []
  {
    if xs != [] {
      var init := DropLast(xs);
      MembersSpec(init, key, k);
      assert xs == init + [Last(xs)];
      var tail := if key(Last(xs)) == k then [Last(xs)] else [];
      SubsequenceAppend(Members(init, key, k), init, tail, [Last(xs)]);
    }
  }

  /** Sum of the group sizes over a list of keys. */
  function SizeSum<K(==), T>(xs: seq<T>, key: T -> K, ks: seq<K>): nat {
    if ks == [] then 0 else SizeSum(xs, key, DropLast(ks)) + |Members(xs, key, Last(ks))|
  }

  /** The group sizes add up to the number of elements: every element lands
      in exactly one group. */
  lemma {:induction false} GroupSizesSum<K, T>(xs: seq<T>, key: T -> K)
    ensures SizeSum(xs, key, FirstKeys(xs, key)) == |xs|
  {
    if xs != [] {
      var init := DropLast(xs);
      var ks := FirstKeys(init, key);
      var k := key(Last(xs));
      GroupSizesSum(init, key);
      SizeSumStep(xs, key, ks);
      if k in ks {
        FirstKeysDistinct(init, key);
        CountIn(ks, k);
      } else {
        NotIn(ks, k);
        MembersOfAbsentKey(init, key, k);
        assert DropLast(ks + [k]) == ks;
      }
    }
  }

  /** Number of positions of `ks` holding `k`. */
  function Occurrences<K(==)>(ks: seq<K>, k: K): nat {
    if ks == [] then 0 else Occurrences(DropLast(ks), k) + (if Last(ks) == k then 1 else 0)
  }

  /** Adding the last element to the grouping adds one to the size of every
      group with its key. */
  lemma {:induction false} SizeSumStep<K, T>(xs: seq<T>, key: T -> K, ks: seq<K>)
    requires xs != []
    ensures SizeSum(xs, key, ks) == SizeSum(DropLast(xs), key, ks) + Occurrences(ks, key(Last(xs)))
  {
    if ks != [] {
      SizeSumStep(xs, key, DropLast(ks));
    }
  }

  lemma {:induction false} CountIn<K>(ks: seq<K>, k: K)
    requires forall i, j :: 0 <= i < j < |ks| ==> ks[i] != ks[j]
    requires k in ks
    ensures Occurrences(ks, k) == 1
  {
    var init := DropLast(ks);
    assert ks == init + [Last(ks)];
    if Last(ks) == k {
      NotIn(init, k);
    } else {
      CountIn(init, k);
    }
  }

  lemma {:induction false} NotIn<K>(ks: seq<K>, k: K)
    requires k !in ks
    ensures Occurrences(ks, k) == 0
  {
    if ks != [] {
      assert ks == DropLast(ks) + [Last(ks)];
      NotIn(DropLast(ks), k);
    }
  }
}
