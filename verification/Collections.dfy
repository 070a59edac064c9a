/** Python's insertion-ordered dict and its stable sort. */
module Collections {

  ghost predicate Distinct<T>(s: seq<T>) {
    forall i, j :: 0 <= i < j < |s| ==> s[i] != s[j]
  }

  lemma AppendAssoc<T>(a: seq<T>, b: seq<T>, c: seq<T>)
    ensures (a + b) + c == a + (b + c)
  {
  }

  lemma TakeSnoc<T>(s: seq<T>, n: nat)
    requires n < |s|
    ensures s[..n + 1] == s[..n] + [s[n]]
  {
  }

  lemma DropStep<T>(s: seq<T>, n: nat)
    requires n < |s|
    ensures s[n..] != [] && s[n..][0] == s[n] && s[n..][1..] == s[n + 1..]
  {
  }

  lemma TakeAll<T>(s: seq<T>, n: nat)
    requires n == |s|
    ensures s[..n] == s
  {
  }

  function ToSet<T>(s: seq<T>): set<T> {
    set x | x in s
  }

  datatype RawDict<K, V> = RawDict(keys: seq<K>, at: map<K, V>) {
    /** Every key is listed, and listed once. */
    ghost predicate Valid() {
      ToSet(keys) == at.Keys && |keys| == |at.Keys|
    }
  }

  /** A dict: its keys in insertion order, and what they map to. */
  type Dict<K, V> = d: RawDict<K, V> | d.Valid() witness RawDict([], map[])

  lemma {:induction false} ToSetSize<T>(s: seq<T>)
    ensures |ToSet(s)| <= |s|
    ensures |ToSet(s)| == |s| <==> Distinct(s)
  {
    if s != [] {
      var head, tail := s[0], s[1..];
      ToSetSize(tail);
      assert ToSet(s) == ToSet(tail) + {head};
      if head in tail {
        var j :| 0 <= j < |tail| && tail[j] == head;
        assert s[0] == s[j + 1];
        assert ToSet(s) == ToSet(tail);
      } else {
        assert forall i, j :: 0 <= i < j < |s| && s[i] == s[j] ==> i > 0 && tail[i - 1] == tail[j - 1];
        assert Distinct(s) ==> Distinct(tail) by {
          assert forall i :: 0 <= i < |tail| ==> tail[i] == s[i + 1];
        }
      }
    }
  }

  lemma KeysDistinct<K, V>(d: Dict<K, V>)
    ensures Distinct(d.keys)
    ensures forall k <- d.keys :: k in d.at
    ensures forall k <- d.at :: k in d.keys
  {
    ToSetSize(d.keys);
    assert forall k <- d.keys :: k in ToSet(d.keys);
    assert forall k <- d.at :: k in ToSet(d.keys);
  }

  /** The `i`-th key is a key, and not one of those before it. */
  lemma KeyAt<K, V>(d: Dict<K, V>, i: nat)
    requires i < |d.keys|
    ensures d.keys[i] in d.at && d.keys[i] !in d.keys[..i]
  {
    KeysDistinct(d);
  }

  lemma KeyNotLater<K, V>(d: Dict<K, V>, i: nat)
    requires i < |d.keys|
    ensures d.keys[i] !in d.keys[i + 1..]
  {
    KeysDistinct(d);
  }

  lemma KeyListed<K, V>(d: Dict<K, V>, k: K)
    ensures k in d.keys <==> k in d.at
  {
    KeysDistinct(d);
  }

  function Empty<K, V>(): Dict<K, V> {
    RawDict([], map[])
  }

  /** `d[k] = v`: an update keeps the key's place, a new key goes last. */
  function Put<K(==), V>(d: Dict<K, V>, k: K, v: V): (r: Dict<K, V>) {
    var r := RawDict(if k in d.at then d.keys else d.keys + [k], d.at[k := v]);
    assert r.Valid() by {
      assert ToSet(d.keys + [k]) == ToSet(d.keys) + {k};
      assert r.at.Keys == d.at.Keys + {k};
    }
    r
  }

  function Without<K(==)>(keys: seq<K>, k: K): seq<K> {
    if keys == [] then []
    else (if keys[0] == k then [] else [keys[0]]) + Without(keys[1..], k)
  }

  lemma {:induction false} WithoutSet<K>(keys: seq<K>, k: K)
    ensures forall x :: x in Without(keys, k) <==> x in keys && x != k
  {
    if keys != [] {
      WithoutSet(keys[1..], k);
    }
  }

  lemma {:induction false} WithoutAbsent<K>(keys: seq<K>, k: K)
    requires k !in keys
    ensures Without(keys, k) == keys
  {
    if keys != [] {
      WithoutAbsent(keys[1..], k);
    }
  }

  lemma DistinctTail<T>(s: seq<T>)
    requires s != [] && Distinct(s)
    ensures Distinct(s[1..]) && s[0] !in s[1..]
  {
    forall i, j | 0 <= i < j < |s[1..]|
      ensures s[1..][i] != s[1..][j]
    {
      assert s[i + 1] != s[j + 1];
    }
  }

  lemma {:induction false} WithoutSize<K>(keys: seq<K>, k: K)
    requires Distinct(keys) && k in keys
    ensures |Without(keys, k)| == |keys| - 1
  {
    DistinctTail(keys);
    if keys[0] == k {
      WithoutAbsent(keys[1..], k);
    } else {
      WithoutSize(keys[1..], k);
    }
  }

  lemma WithoutOne<K>(keys: seq<K>, k: K)
    requires Distinct(keys)
    ensures ToSet(Without(keys, k)) == ToSet(keys) - {k}
    ensures |Without(keys, k)| == if k in keys then |keys| - 1 else |keys|
    ensures k !in keys ==> Without(keys, k) == keys
  {
    WithoutSet(keys, k);
    assert ToSet(Without(keys, k)) == ToSet(keys) - {k};
    if k in keys {
      WithoutSize(keys, k);
    } else {
      WithoutAbsent(keys, k);
    }
  }

  /** `del d[k]`, or nothing when the key is missing */
  function Drop<K(==), V>(d: Dict<K, V>, k: K): (r: Dict<K, V>) {
    var r := RawDict(Without(d.keys, k), d.at - {k});
    assert r.Valid() by {
      KeysDistinct(d);
      WithoutOne(d.keys, k);
      assert r.at.Keys == d.at.Keys - {k};
    }
    r
  }

  lemma DropAbsent<K, V>(d: Dict<K, V>, k: K)
    requires k !in d.at
    ensures Drop(d, k) == d
  {
    KeyListed(d, k);
    WithoutAbsent(d.keys, k);
    assert Drop(d, k).keys == d.keys;
    assert Drop(d, k).at == d.at;
  }

  lemma SameDict<K, V>(a: Dict<K, V>, b: Dict<K, V>)
    requires a.keys == b.keys && forall k <- a.at :: k in b.at ==> a.at[k] == b.at[k]
    ensures a == b
  {
    assert a.at.Keys == b.at.Keys;
    assert a.at == b.at;
  }

  /** The same keys in the same order, every value mapped. */
  function MapValues<K, V, W>(d: Dict<K, V>, f: V -> W): Dict<K, W> {
    var r := RawDict(d.keys, map k | k in d.at :: f(d.at[k]));
    assert r.at.Keys == d.at.Keys;
    r
  }

  // ---- The part of a dict whose values pass a test ----

  function KeepKeys<K, V>(keys: seq<K>, at: map<K, V>, keep: V -> bool): seq<K>
    requires forall k <- keys :: k in at
  {
    if keys == [] then []
    else (if keep(at[keys[0]]) then [keys[0]] else []) + KeepKeys(keys[1..], at, keep)
  }

  lemma {:induction false} KeepKeysMembers<K, V>(keys: seq<K>, at: map<K, V>, keep: V -> bool, k: K)
    requires forall k <- keys :: k in at
    ensures k in KeepKeys(keys, at, keep) <==> k in keys && keep(at[k])
  {
    if keys != [] {
      KeepKeysMembers(keys[1..], at, keep, k);
    }
  }

  lemma {:induction false} KeepKeysDistinct<K, V>(keys: seq<K>, at: map<K, V>, keep: V -> bool)
    requires forall k <- keys :: k in at
    requires Distinct(keys)
    ensures Distinct(KeepKeys(keys, at, keep))
  {
    if keys != [] {
      KeepKeysDistinct(keys[1..], at, keep);
      KeepKeysMembers(keys[1..], at, keep, keys[0]);
      assert keys[0] !in keys[1..];
    }
  }

  function KeepAt<K, V>(at: map<K, V>, keep: V -> bool): map<K, V> {
    map k | k in at && keep(at[k]) :: at[k]
  }

  function Restrict<K, V>(d: Dict<K, V>, keep: V -> bool): Dict<K, V> {
    KeysDistinct(d);
    var r := RawDict(KeepKeys(d.keys, d.at, keep), KeepAt(d.at, keep));
    assert r.Valid() by {
      KeepKeysDistinct(d.keys, d.at, keep);
      ToSetSize(r.keys);
      forall k
        ensures k in ToSet(r.keys) <==> k in r.at.Keys
      {
        KeepKeysMembers(d.keys, d.at, keep, k);
        KeyListed(d, k);
      }
      assert ToSet(r.keys) == r.at.Keys;
    }
    r
  }

  lemma {:induction false} KeepKeysSame<K, V>(keys: seq<K>, at: map<K, V>, at': map<K, V>, keep: V -> bool)
    requires forall k <- keys :: k in at && k in at' && (keep(at[k]) <==> keep(at'[k]))
    ensures KeepKeys(keys, at, keep) == KeepKeys(keys, at', keep)
  {
    if keys != [] {
      KeepKeysSame(keys[1..], at, at', keep);
    }
  }

  lemma {:induction false} KeepKeysSnoc<K, V>(keys: seq<K>, k: K, at: map<K, V>, keep: V -> bool)
    requires k in at && forall k <- keys :: k in at
    ensures KeepKeys(keys + [k], at, keep) == KeepKeys(keys, at, keep) + if keep(at[k]) then [k] else []
  {
    if keys == [] {
      assert [] + [k] == [k];
    } else {
      assert (keys + [k])[1..] == keys[1..] + [k];
      KeepKeysSnoc(keys[1..], k, at, keep);
      var first, last := if keep(at[keys[0]]) then [keys[0]] else [], if keep(at[k]) then [k] else [];
      AppendAssoc(first, KeepKeys(keys[1..], at, keep), last);
    }
  }

  lemma KeepAtPut<K, V>(at: map<K, V>, k: K, v: V, keep: V -> bool)
    ensures keep(v) ==> KeepAt(at[k := v], keep) == KeepAt(at, keep)[k := v]
    ensures !keep(v) && (k in at ==> !keep(at[k])) ==> KeepAt(at[k := v], keep) == KeepAt(at, keep)
  {
  }

  lemma RestrictParts<K, V>(d: Dict<K, V>, keep: V -> bool, k: K)
    ensures Restrict(d, keep).at == KeepAt(d.at, keep)
    ensures k in Restrict(d, keep).at <==> k in d.at && keep(d.at[k])
  {
  }

  lemma PutParts<K, V>(d: Dict<K, V>, k: K, v: V)
    ensures Put(d, k, v).keys == (if k in d.at then d.keys else d.keys + [k]) && Put(d, k, v).at == d.at[k := v]
  {
  }

  lemma PutKeysAlike<K, V, W>(a: Dict<K, V>, b: Dict<K, W>, k: K, v: V, w: W)
    requires a.keys == b.keys
    ensures Put(a, k, v).keys == Put(b, k, w).keys
  {
    KeyListed(a, k);
    KeyListed(b, k);
  }

  lemma SameParts<K, V>(a: Dict<K, V>, b: Dict<K, V>)
    requires a.keys == b.keys && a.at == b.at
    ensures a == b
  {
  }

  /** Writing a value that passes, over nothing or over one that passes, writes it to the restriction. */
  lemma RestrictPutIn<K, V>(d: Dict<K, V>, k: K, v: V, keep: V -> bool)
    requires keep(v) && (k in d.at ==> keep(d.at[k]))
    ensures Restrict(Put(d, k, v), keep) == Put(Restrict(d, keep), k, v)
  {
    RestrictPutKeys(d, k, v, keep);
    RestrictPutAt(d, k, v, keep);
    RestrictParts(d, keep, k);
    PutParts(Restrict(d, keep), k, v);
    SameParts(Restrict(Put(d, k, v), keep), Put(Restrict(d, keep), k, v));
  }

  lemma RestrictPutAt<K, V>(d: Dict<K, V>, k: K, v: V, keep: V -> bool)
    ensures keep(v) ==> Restrict(Put(d, k, v), keep).at == Restrict(d, keep).at[k := v]
    ensures !keep(v) && (k in d.at ==> !keep(d.at[k])) ==> Restrict(Put(d, k, v), keep).at == Restrict(d, keep).at
  {
    RestrictParts(d, keep, k);
    RestrictParts(Put(d, k, v), keep, k);
    PutParts(d, k, v);
    KeepAtPut(d.at, k, v, keep);
  }

  /** Writing a value that does not pass, over nothing or over one that does not, leaves the restriction alone. */
  lemma RestrictPutOut<K, V>(d: Dict<K, V>, k: K, v: V, keep: V -> bool)
    requires !keep(v) && (k in d.at ==> !keep(d.at[k]))
    ensures Restrict(Put(d, k, v), keep) == Restrict(d, keep)
  {
    RestrictPutKeys(d, k, v, keep);
    RestrictPutAt(d, k, v, keep);
    SameParts(Restrict(Put(d, k, v), keep), Restrict(d, keep));
  }

  lemma RestrictPutKeys<K, V>(d: Dict<K, V>, k: K, v: V, keep: V -> bool)
    requires k in d.at ==> (keep(v) <==> keep(d.at[k]))
    ensures Restrict(Put(d, k, v), keep).keys ==
              if k in d.at || !keep(v) then Restrict(d, keep).keys else Restrict(d, keep).keys + [k]
  {
    KeysDistinct(d);
    KeysDistinct(Put(d, k, v));
    KeepKeysSame(d.keys, d.at, d.at[k := v], keep);
    if k !in d.at {
      KeepKeysSnoc(d.keys, k, d.at[k := v], keep);
    }
  }

  // ---- Stable sort by descending score ----

  datatype Scored<T> = Scored(score: real, item: T)

  /** Put `x` behind every element that scores at least as much. */
  function Insert<T>(s: seq<Scored<T>>, x: Scored<T>): seq<Scored<T>> {
    if s == [] || s[0].score < x.score then [x] + s
    else [s[0]] + Insert(s[1..], x)
  }

  /** `sorted(s, key=score, reverse=True)`: ties keep their order. */
  function SortDesc<T>(s: seq<Scored<T>>): (r: seq<Scored<T>>)
    ensures |r| == |s|
  {
    if s == [] then []
    else InsertSize(SortDesc(s[..|s| - 1]), s[|s| - 1]); Insert(SortDesc(s[..|s| - 1]), s[|s| - 1])
  }

  lemma {:induction false} InsertSize<T>(s: seq<Scored<T>>, x: Scored<T>)
    ensures |Insert(s, x)| == |s| + 1
  {
    if s != [] && s[0].score >= x.score {
      InsertSize(s[1..], x);
    }
  }

  ghost predicate Descending<T>(s: seq<Scored<T>>) {
    forall i, j :: 0 <= i < j < |s| ==> s[i].score >= s[j].score
  }

  /** The elements with a given score, in order. */
  ghost function Tied<T>(s: seq<Scored<T>>, score: real): seq<Scored<T>> {
    if s == [] then []
    else (if s[0].score == score then [s[0]] else []) + Tied(s[1..], score)
  }

  lemma {:induction false} InsertMembers<T>(s: seq<Scored<T>>, x: Scored<T>)
    ensures multiset(Insert(s, x)) == multiset(s) + multiset{x}
  {
    if s != [] && s[0].score >= x.score {
      InsertMembers(s[1..], x);
      assert s == [s[0]] + s[1..];
    }
  }

  lemma {:induction false} InsertDescending<T>(s: seq<Scored<T>>, x: Scored<T>)
    requires Descending(s)
    ensures Descending(Insert(s, x))
  {
    if s != [] && s[0].score >= x.score {
      InsertDescending(s[1..], x);
      InsertMembers(s[1..], x);
      var r := Insert(s[1..], x);
      forall j | 0 <= j < |r|
        ensures s[0].score >= r[j].score
      {
        assert r[j] in multiset(r);
        assert r[j] in multiset(s[1..]) || r[j] == x;
        assert r[j] in s[1..] || r[j] == x;
      }
    }
  }

  lemma {:induction false} InsertTied<T>(s: seq<Scored<T>>, x: Scored<T>, score: real)
    requires Descending(s)
    ensures Tied(Insert(s, x), score) == Tied(s, score) + if x.score == score then [x] else []
  {
    if s == [] {
    } else if s[0].score < x.score {
      if x.score == score {
        NoneTied(s, score);
      }
      assert ([x] + s)[1..] == s;
    } else {
      InsertTied(s[1..], x, score);
      assert ([s[0]] + Insert(s[1..], x))[1..] == Insert(s[1..], x);
    }
  }

  lemma {:induction false} NoneTied<T>(s: seq<Scored<T>>, score: real)
    requires forall k :: 0 <= k < |s| ==> s[k].score < score
    ensures Tied(s, score) == []
  {
    if s != [] {
      NoneTied(s[1..], score);
    }
  }

  lemma {:induction false} TiedConcat<T>(a: seq<Scored<T>>, b: seq<Scored<T>>, score: real)
    ensures Tied(a + b, score) == Tied(a, score) + Tied(b, score)
  {
    if a == [] {
      assert a + b == b;
    } else {
      assert (a + b)[1..] == a[1..] + b;
      TiedConcat(a[1..], b, score);
      AppendAssoc(if a[0].score == score then [a[0]] else [], Tied(a[1..], score), Tied(b, score));
    }
  }

  lemma {:induction false} SortMembers<T>(s: seq<Scored<T>>)
    ensures multiset(SortDesc(s)) == multiset(s)
  {
    if s != [] {
      var init, last := s[..|s| - 1], s[|s| - 1];
      SortMembers(init);
      InsertMembers(SortDesc(init), last);
      assert s == init + [last];
    }
  }

  lemma {:induction false} SortOrders<T>(s: seq<Scored<T>>)
    ensures Descending(SortDesc(s))
  {
    if s != [] {
      SortOrders(s[..|s| - 1]);
      InsertDescending(SortDesc(s[..|s| - 1]), s[|s| - 1]);
    }
  }

  lemma {:induction false} SortTies<T>(s: seq<Scored<T>>, score: real)
    ensures Tied(SortDesc(s), score) == Tied(s, score)
  {
    if s != [] {
      var init, last := s[..|s| - 1], s[|s| - 1];
      SortTies(init, score);
      SortOrders(init);
      InsertTied(SortDesc(init), last, score);
      TiedConcat(init, [last], score);
      assert s == init + [last];
    }
  }

  /** Sorting rearranges, puts higher scores first, and keeps the order of ties. */
  lemma SortIsStable<T>(s: seq<Scored<T>>)
    ensures multiset(SortDesc(s)) == multiset(s)
    ensures Descending(SortDesc(s))
    ensures forall score :: Tied(SortDesc(s), score) == Tied(s, score)
  {
    SortMembers(s);
    SortOrders(s);
    forall score
      ensures Tied(SortDesc(s), score) == Tied(s, score)
    {
      SortTies(s, score);
    }
  }

  lemma SortKeeps<T>(s: seq<Scored<T>>, x: Scored<T>)
    ensures x in SortDesc(s) <==> x in s
  {
    SortIsStable(s);
    assert x in multiset(SortDesc(s)) <==> x in multiset(s);
  }
}
