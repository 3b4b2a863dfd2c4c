/**
 * PHP's ordered arrays, restricted to what the library uses: string keys
 * (an integer key is kept as its decimal text, which is how PHP itself
 * identifies "1" and 1), insertion order, `$a[$k] = $v` and `unset($a[$k])`.
 */
module PhpArrays {
  import opened Wrappers

  type PhpArray<V> = seq<(string, V)>

  function Keys<V>(a: PhpArray<V>): (ks: seq<string>)
    ensures |ks| == |a|
  {
    seq(|a|, i requires 0 <= i < |a| => a[i].0)
  }

  function Values<V>(a: PhpArray<V>): (vs: seq<V>)
    ensures |vs| == |a|
  {
    seq(|a|, i requires 0 <= i < |a| => a[i].1)
  }

  /** What every PHP array satisfies: no key occurs twice. */
  predicate DistinctKeys<V>(a: PhpArray<V>)
  {
    forall i, j :: 0 <= i < j < |a| ==> a[i].0 != a[j].0
  }

  lemma ConsDistinct<V>(x: (string, V), rest: PhpArray<V>)
    requires DistinctKeys(rest) && x.0 !in Keys(rest)
    ensures DistinctKeys([x] + rest)
  {
    forall i, j | 0 <= i < j < |[x] + rest| ensures ([x] + rest)[i].0 != ([x] + rest)[j].0 {
      if i == 0 {
        assert Keys(rest)[j - 1] == rest[j - 1].0;
      }
    }
  }

  lemma TailDistinct<V>(a: PhpArray<V>)
    requires a != [] && DistinctKeys(a)
    ensures DistinctKeys(a[1..]) && a[0].0 !in Keys(a[1..])
  {
  }

  lemma ConsKeepsDistinct<V>(a: PhpArray<V>, rest: PhpArray<V>)
    requires a != []
    requires forall x :: x in Keys(rest) && x !in Keys(a[1..]) ==> x != a[0].0
    requires DistinctKeys(a[1..]) ==> DistinctKeys(rest)
    ensures DistinctKeys(a) ==> DistinctKeys([a[0]] + rest)
  {
    if DistinctKeys(a) {
      TailDistinct(a);
      ConsDistinct(a[0], rest);
    }
  }

  /** `$a[$k] ?? null`. */
  function Get<V>(a: PhpArray<V>, k: string): (r: Option<V>)
    ensures r.Some? <==> k in Keys(a)
    ensures DistinctKeys(a) ==> forall i :: 0 <= i < |a| && a[i].0 == k ==> r == Some(a[i].1)
  {
    if a == [] then None
    else
      assert Keys(a) == [a[0].0] + Keys(a[1..]);
      if a[0].0 == k then Some(a[0].1) else Get(a[1..], k)
  }

  /** A value `Get` finds is stored in some entry under that key. */
  lemma {:induction false} GetFound<V>(a: PhpArray<V>, k: string)
    ensures Get(a, k).Some? ==> exists i :: 0 <= i < |a| && a[i].0 == k && a[i].1 == Get(a, k).value
  {
    if a != [] && a[0].0 != k {
      GetFound(a[1..], k);
      if Get(a[1..], k).Some? {
        var i :| 0 <= i < |a[1..]| && a[1..][i].0 == k && a[1..][i].1 == Get(a[1..], k).value;
        assert a[i + 1].0 == k;
      }
    }
  }

  /** `$a[$k] = $v`: an existing key keeps its position, a new key goes last. */
  function Put<V>(a: PhpArray<V>, k: string, v: V): (r: PhpArray<V>)
  {
    if a == [] then [(k, v)]
    else if a[0].0 == k then [(k, v)] + a[1..]
    else [a[0]] + Put(a[1..], k, v)
  }

  /** `$a[$k] = $v` leaves the keys as they were when `$k` is one of them, and appends `$k` otherwise. */
  lemma {:induction false} PutKeysAfter<V>(a: PhpArray<V>, k: string, v: V)
    ensures Keys(Put(a, k, v)) == if k in Keys(a) then Keys(a) else Keys(a) + [k]
  {
    if a != [] {
      KeysCons(a[0], a[1..]);
      assert [a[0]] + a[1..] == a;
      if a[0].0 == k {
        KeysCons((k, v), a[1..]);
      } else {
        PutKeysAfter(a[1..], k, v);
        KeysCons(a[0], Put(a[1..], k, v));
      }
    }
  }

  /** `$a[$k] = $v` keeps the keys distinct. */
  lemma {:induction false} PutDistinct<V>(a: PhpArray<V>, k: string, v: V)
    requires DistinctKeys(a)
    ensures DistinctKeys(Put(a, k, v))
  {
    if a != [] && a[0].0 != k {
      PutDistinct(a[1..], k, v);
      PutKeysAfter(a[1..], k, v);
      KeysCons(a[0], a[1..]);
      assert [a[0]] + a[1..] == a;
      ConsKeepsDistinct(a, Put(a[1..], k, v));
    }
  }

  /** Whether the keys are distinct depends on the keys alone. */
  lemma SameKeysDistinct<V, W>(a: PhpArray<V>, b: PhpArray<W>)
    requires Keys(a) == Keys(b) && DistinctKeys(a)
    ensures DistinctKeys(b)
  {
    forall i, j | 0 <= i < j < |b| ensures b[i].0 != b[j].0 {
      assert Keys(a)[i] == b[i].0 && Keys(a)[j] == b[j].0;
    }
  }

  lemma KeysCons<V>(e: (string, V), rest: PhpArray<V>)
    ensures Keys([e] + rest) == [e.0] + Keys(rest)
  {
  }

  lemma GetCons<V>(e: (string, V), rest: PhpArray<V>, x: string)
    ensures Get([e] + rest, x) == if e.0 == x then Some(e.1) else Get(rest, x)
  {
    assert ([e] + rest)[1..] == rest;
  }

  /** After `$a[$k] = $v` the key reads back `$v` and every other key reads as before. */
  lemma {:induction false} PutGet<V>(a: PhpArray<V>, k: string, v: V, x: string)
    ensures Get(Put(a, k, v), x) == if x == k then Some(v) else Get(a, x)
  {
    if a == [] {
    } else if a[0].0 == k {
      GetCons((k, v), a[1..], x);
    } else {
      PutGet(a[1..], k, v, x);
      GetCons(a[0], Put(a[1..], k, v), x);
    }
  }

  /** The keys of an array with keys `ks` after storing the keys `adds` in order. */
  function PutKeys(ks: seq<string>, adds: seq<string>): (r: seq<string>)
    ensures ks <= r
    decreases |adds|
  {
    if adds == [] then ks
    else
      var p := PutKeys(ks, adds[..|adds| - 1]);
      if adds[|adds| - 1] in p then p else p + [adds[|adds| - 1]]
  }

  /** Storing one more key: it is added unless it is there already. */
  lemma PutKeysSnoc(ks: seq<string>, adds: seq<string>, k: string)
    ensures PutKeys(ks, adds + [k]) == if k in PutKeys(ks, adds) then PutKeys(ks, adds) else PutKeys(ks, adds) + [k]
  {
    assert (adds + [k])[..|adds|] == adds;
  }

  /** Storing keys adds exactly those that were missing. */
  lemma {:induction false} PutKeysHas(ks: seq<string>, adds: seq<string>)
    ensures forall x :: x in PutKeys(ks, adds) <==> x in ks || x in adds
    decreases |adds|
  {
    if adds != [] {
      var init := adds[..|adds| - 1];
      PutKeysHas(ks, init);
      assert adds == init + [adds[|adds| - 1]];
    }
  }

  /** Storing keys that are new, and new to each other, appends them in order. */
  lemma {:induction false} PutKeysFresh(ks: seq<string>, adds: seq<string>)
    requires forall i, j :: 0 <= i < j < |adds| ==> adds[i] != adds[j]
    requires forall i :: 0 <= i < |adds| ==> adds[i] !in ks
    ensures PutKeys(ks, adds) == ks + adds
    decreases |adds|
  {
    if adds != [] {
      var init := adds[..|adds| - 1];
      PutKeysFresh(ks, init);
      assert adds[|adds| - 1] !in init;
      assert ks + init + [adds[|adds| - 1]] == ks + adds;
    }
  }

  /** The keys of an array with distinct keys, stored one by one into an empty array, come out as they were. */
  lemma PutKeysOfDistinct<V>(a: PhpArray<V>, n: nat)
    requires DistinctKeys(a) && n <= |a|
    ensures PutKeys([], Keys(a)[..n]) == Keys(a)[..n]
  {
    PutKeysFresh([], Keys(a)[..n]);
  }

  /** Storing under a key that is there replaces that entry where it stands. */
  lemma {:induction false} PutExisting<V>(a: PhpArray<V>, i: nat, v: V)
    requires DistinctKeys(a) && i < |a|
    ensures Put(a, a[i].0, v) == a[i := (a[i].0, v)]
  {
    if i > 0 {
      PutExisting(a[1..], i - 1, v);
      assert [a[0]] + a[1..][i - 1 := (a[i].0, v)] == a[i := (a[i].0, v)];
    }
  }

  /** An entry added at the end is found only when no earlier entry has its key. */
  lemma {:induction false} GetSnoc<V>(a: PhpArray<V>, e: (string, V), x: string)
    ensures Get(a + [e], x) == if Get(a, x).Some? then Get(a, x) else if e.0 == x then Some(e.1) else None
  {
    if a != [] {
      assert (a + [e])[1..] == a[1..] + [e];
      GetSnoc(a[1..], e, x);
    }
  }

  /** `unset($a[$k])`: the other entries keep their order. */
  function Remove<V>(a: PhpArray<V>, k: string): (r: PhpArray<V>)
    ensures k !in Keys(r)
    ensures forall x :: x in Keys(r) <==> x in Keys(a) && x != k
    ensures DistinctKeys(a) ==> DistinctKeys(r)
    ensures Get(r, k) == None
    ensures forall x :: x != k ==> Get(r, x) == Get(a, x)
    ensures k !in Keys(a) ==> r == a
  {
    if a == [] then []
    else
      var rest := Remove(a[1..], k);
      assert Keys(a) == [a[0].0] + Keys(a[1..]);
      if a[0].0 == k then rest
      else
        assert Keys([a[0]] + rest) == [a[0].0] + Keys(rest);
        ConsKeepsDistinct(a, rest);
        [a[0]] + rest
  }

  /** The keys of `a` that are not in `drop`, in order (what remains after unsetting them). */
  function Without<V>(a: PhpArray<V>, drop: set<string>): (r: PhpArray<V>)
    ensures forall x :: x in Keys(r) <==> x in Keys(a) && x !in drop
    ensures DistinctKeys(a) ==> DistinctKeys(r)
    ensures |r| <= |a|
  {
    if a == [] then []
    else
      var rest := Without(a[1..], drop);
      assert Keys(a) == [a[0].0] + Keys(a[1..]);
      if a[0].0 in drop then rest
      else
        assert Keys([a[0]] + rest) == [a[0].0] + Keys(rest);
        ConsKeepsDistinct(a, rest);
        [a[0]] + rest
  }

  lemma {:induction false} RemoveIsWithout<V>(a: PhpArray<V>, drop: set<string>, k: string)
    ensures Remove(Without(a, drop), k) == Without(a, drop + {k})
  {
    if a != [] {
      RemoveIsWithout(a[1..], drop, k);
    }
  }

  lemma {:induction false} PutThenRemoveFresh<V>(a: PhpArray<V>, k: string, v: V)
    requires k !in Keys(a)
    ensures Remove(Put(a, k, v), k) == a
  {
    if a != [] {
      assert Keys(a) == [a[0].0] + Keys(a[1..]);
      PutThenRemoveFresh(a[1..], k, v);
    }
  }

  /** Storing a key that is not there yet appends it. */
  lemma {:induction false} PutAppends<V>(a: PhpArray<V>, k: string, v: V)
    requires forall j :: 0 <= j < |a| ==> a[j].0 != k
    ensures Put(a, k, v) == a + [(k, v)]
  {
    if a != [] {
      KeysCons(a[0], a[1..]);
      assert [a[0]] + a[1..] == a;
      PutAppends(a[1..], k, v);
      assert [a[0]] + (a[1..] + [(k, v)]) == a + [(k, v)];
    }
  }

  /** The first `n` keys are the first `m` and the key at `m`, when `n` is `m + 1`. */
  lemma KeysTakeStep<V>(a: PhpArray<V>, m: nat, n: nat)
    requires n == m + 1 <= |a|
    ensures Keys(a)[..n] == Keys(a)[..m] + [a[m].0]
  {
  }

  /** In an array, the key at position `n` is not among the keys before it. */
  lemma KeysPrefixStep<V>(a: PhpArray<V>, n: nat)
    requires DistinctKeys(a) && n < |a|
    ensures Keys(a)[..n + 1] == Keys(a)[..n] + [a[n].0]
    ensures a[n].0 !in Keys(a)[..n]
  {
  }

  /** The array that pairs each key with the value at the same position. */
  function Zip<V>(ks: seq<string>, vs: seq<V>): (r: PhpArray<V>)
    requires |ks| == |vs|
    ensures Keys(r) == ks && Values(r) == vs
  {
    seq(|ks|, i requires 0 <= i < |ks| => (ks[i], vs[i]))
  }

  /** Storing a key that is not there yet extends both sequences. */
  lemma PutZip<V>(ks: seq<string>, vs: seq<V>, k: string, v: V)
    requires |ks| == |vs| && k !in ks
    ensures Put(Zip(ks, vs), k, v) == Zip(ks + [k], vs + [v])
  {
    var a := Zip(ks, vs);
    assert forall j :: 0 <= j < |a| ==> a[j].0 == ks[j];
    PutAppends(a, k, v);
  }

  /** The entries of `a` whose key is among `names`, in the order of `a`. */
  function Listed<V>(a: PhpArray<V>, names: seq<string>): (r: PhpArray<V>)
    ensures forall x :: x in Keys(r) <==> x in Keys(a) && x in names
    ensures forall e :: e in r ==> e in a
    ensures DistinctKeys(a) ==> DistinctKeys(r)
  {
    if a == [] then []
    else
      var init, last := a[..|a| - 1], a[|a| - 1];
      assert a == init + [last];
      assert Keys(a) == Keys(init) + [last.0];
      var rest := Listed(init, names);
      if last.0 in names then
        assert Keys(rest + [last]) == Keys(rest) + [last.0];
        assert DistinctKeys(a) ==> DistinctKeys(rest + [last]) by {
          if DistinctKeys(a) {
            forall j | 0 <= j < |init| ensures init[j].0 != last.0 {
              assert a[j] == init[j];
            }
            SnocDistinct(rest, last);
          }
        }
        rest + [last]
      else rest
  }

  lemma SnocDistinct<V>(a: PhpArray<V>, e: (string, V))
    requires DistinctKeys(a) && e.0 !in Keys(a)
    ensures DistinctKeys(a + [e])
  {
    forall j | 0 <= j < |a| ensures a[j].0 != e.0 {
      assert Keys(a)[j] == a[j].0;
    }
  }

  /** Keeping the listed entries of two arrays one after the other keeps those of each. */
  lemma {:induction false} ListedAppend<V>(a: PhpArray<V>, b: PhpArray<V>, names: seq<string>)
    ensures Listed(a + b, names) == Listed(a, names) + Listed(b, names)
    decreases |b|
  {
    if b != [] {
      var init, last := b[..|b| - 1], b[|b| - 1];
      assert (a + b)[..|a + b| - 1] == a + init;
      ListedAppend(a, init, names);
    } else {
      assert a + b == a;
    }
  }

  /** In an array, unsetting the first key after a prefix leaves the prefix and the rest after it. */
  lemma {:induction false} RemoveAhead<V>(done: PhpArray<V>, rest: PhpArray<V>)
    requires rest != [] && DistinctKeys(done + rest)
    ensures Remove(done + rest, rest[0].0) == done + rest[1..]
    decreases |done|
  {
    var a := done + rest;
    if done == [] {
      assert a == rest;
      TailDistinct(rest);
      assert Remove(rest, rest[0].0) == Remove(rest[1..], rest[0].0);
    } else {
      assert a[0] == done[0] && a[1..] == done[1..] + rest;
      assert a[0].0 != rest[0].0 by {
        assert a[|done|] == rest[0];
      }
      TailDistinct(a);
      RemoveAhead(done[1..], rest);
      assert [done[0]] + (done[1..] + rest[1..]) == done + rest[1..];
    }
  }

  /**
   * The values of `array_diff($a, $b)` on strings: the entries of `a` not in `b`, in order.
   * PHP keeps the original keys; dropping them is harmless because the only caller,
   * `except`, hands the result to `only`, which tests names with `in_array`.
   */
  function Difference(a: seq<string>, b: seq<string>): (r: seq<string>)
    ensures forall x :: x in r <==> x in a && x !in b
  {
    if a == [] then []
    else if a[0] in b then Difference(a[1..], b)
    else [a[0]] + Difference(a[1..], b)
  }
}
