/**
 * The answer caches: src/rag/cache/memory.py, src/rag/cache/semantic.py and the scopes of src/rag/cache/keys.py.
 * SHA-256 of canonical JSON is taken as injective, so a scope is the record it hashes. Time is a clock reading
 * handed in by the caller.
 */
module Caches {
  import opened Schemas
  import opened Acl

  type Params = map<string, string>

  /** src/rag/cache/keys.py:15-34 */
  datatype Scope = Scope(acl: string, indexVersion: string, promptVersion: string, params: Params)

  /** src/rag/cache/keys.py:37-56 */
  datatype Key = Key(scope: Scope, query: string)

  function CacheScope(p: Principal, indexVersion: string, promptVersion: string, params: Params): Scope {
    Scope(Fingerprint(p), indexVersion, promptVersion, params)
  }

  // ---- The TTL cache ----

  datatype Slot<V> = Slot(value: V, expires: Option<int>)

  predicate Live<V>(slot: Slot<V>, now: int) {
    slot.expires.None? || now <= slot.expires.value
  }

  /** What `get` answers. */
  function Lookup<K, V>(store: map<K, Slot<V>>, key: K, now: int): Option<V> {
    if key in store && Live(store[key], now) then Some(store[key].value) else None
  }

  /** What `get` leaves: an expired entry is deleted when it is looked up. */
  function Swept<K, V>(store: map<K, Slot<V>>, key: K, now: int): map<K, Slot<V>> {
    if key in store && !Live(store[key], now) then store - {key} else store
  }

  /** A time to live of zero means none, as in Python `if ttl_seconds`. */
  function Written<K, V>(store: map<K, Slot<V>>, key: K, value: V, ttl: Option<int>, now: int): map<K, Slot<V>> {
    store[key := Slot(value, if ttl.Some? && ttl.value != 0 then Some(now + ttl.value) else None)]
  }

  /** A value read back is the one last written under that key, and is not older than its time to live. */
  lemma ReadBack<K, V>(store: map<K, Slot<V>>, key: K, value: V, ttl: Option<int>, now: int, later: int, other: K)
    requires now <= later
    ensures var s := Written(store, key, value, ttl, now);
            && (Lookup(s, key, later) == Some(value) <==>
                  (ttl.None? || ttl.value == 0 || later <= now + ttl.value))
            && (other != key ==> Lookup(s, other, later) == Lookup(store, other, later))
            && Lookup(Swept(s, other, later), key, later) == Lookup(s, key, later)
  {
  }

  class MemoryCache<K(==), V> {
    var store: map<K, Slot<V>>

    constructor ()
      ensures store == map[]
    {
      store := map[];
    }

    /** src/rag/cache/memory.py:12-20 */
    method Get(key: K, now: int) returns (r: Option<V>)
      modifies this
      ensures r == Lookup(old(store), key, now)
      ensures store == Swept(old(store), key, now)
    {
      if key !in store {
        return None;
      }
      var slot := store[key];
      if slot.expires.Some? && now > slot.expires.value {
        store := store - {key};
        return None;
      }
      r := Some(slot.value);
    }

    /** src/rag/cache/memory.py:22-24 */
    method Set(key: K, value: V, ttl: Option<int>, now: int)
      modifies this
      ensures store == Written(old(store), key, value, ttl, now)
    {
      var expires := if ttl.Some? && ttl.value != 0 then Some(now + ttl.value) else None;
      store := store[key := Slot(value, expires)];
    }

    /** src/rag/cache/memory.py:26-27 */
    method Delete(key: K)
      modifies this
      ensures store == old(store) - {key}
    {
      store := store - {key};
    }
  }

  // ---- The semantic cache ----

  type Vector = seq<real>

  datatype Entry<V> = Entry(query: string, vector: Vector, value: V)

  type Buckets<V> = map<Scope, seq<Entry<V>>>

  /** Settings and the functions the cache is given. */
  datatype Semantics = Semantics(
    normalize: string -> string,
    embed: string -> Vector,
    cosine: (Vector, Vector) -> real,
    threshold: real,
    maxEntries: nat)

  function Bucket<V>(buckets: Buckets<V>, scope: Scope): seq<Entry<V>> {
    if scope in buckets then buckets[scope] else []
  }

  function Similarity<V>(sem: Semantics, query: string, e: Entry<V>): real {
    sem.cosine(sem.embed(sem.normalize(query)), e.vector)
  }

  /** `best` is the first entry of the greatest similarity. */
  ghost predicate Nearest<V>(sem: Semantics, bucket: seq<Entry<V>>, query: string, best: nat) {
    && best < |bucket|
    && (forall j :: 0 <= j < |bucket| ==> Similarity(sem, query, bucket[j]) <= Similarity(sem, query, bucket[best]))
    && (forall j :: 0 <= j < best ==> Similarity(sem, query, bucket[j]) < Similarity(sem, query, bucket[best]))
  }

  /** What `get` answers: the value of the nearest entry of the scope, if it is near enough. */
  ghost predicate Answers<V>(sem: Semantics, buckets: Buckets<V>, scope: Scope, query: string, r: Option<V>) {
    var bucket := Bucket(buckets, scope);
    if r.Some? then
      exists best: nat :: Nearest(sem, bucket, query, best) && Similarity(sem, query, bucket[best]) >= sem.threshold
                     && bucket[best].value == r.value
    else
      forall j :: 0 <= j < |bucket| ==> Similarity(sem, query, bucket[j]) < sem.threshold
  }

  /** The first entry for a normalized query. */
  function IndexOf<V>(bucket: seq<Entry<V>>, query: string): (i: nat)
    ensures i <= |bucket|
    ensures i < |bucket| ==> bucket[i].query == query
  {
    if bucket == [] || bucket[0].query == query then 0 else 1 + IndexOf(bucket[1..], query)
  }

  lemma {:induction false} IndexOfFirst<V>(bucket: seq<Entry<V>>, query: string)
    ensures forall j :: 0 <= j < IndexOf(bucket, query) ==> bucket[j].query != query
  {
    if bucket != [] && bucket[0].query != query {
      IndexOfFirst(bucket[1..], query);
    }
  }

  /** A bucket after `set`: an entry for the query is overwritten in place; else it goes last and the first may go. */
  function Stored<V>(sem: Semantics, bucket: seq<Entry<V>>, query: string, value: V): seq<Entry<V>> {
    var q := sem.normalize(query);
    var e := Entry(q, sem.embed(q), value);
    var i := IndexOf(bucket, q);
    if i < |bucket| then bucket[i := e]
    else if |bucket| + 1 > sem.maxEntries then (bucket + [e])[1..]
    else bucket + [e]
  }

  /** One entry per query, and no more entries than allowed. */
  ghost predicate Tidy<V>(sem: Semantics, bucket: seq<Entry<V>>) {
    |bucket| <= sem.maxEntries && forall i, j :: 0 <= i < j < |bucket| ==> bucket[i].query != bucket[j].query
  }

  /** `set` keeps buckets tidy, and each entry after it is the new one or an old one. */
  lemma StoredTidy<V>(sem: Semantics, bucket: seq<Entry<V>>, query: string, value: V)
    requires Tidy(sem, bucket)
    ensures Tidy(sem, Stored(sem, bucket, query, value))
    ensures forall e :: e in Stored(sem, bucket, query, value) ==> e in bucket || e.value == value
  {
    IndexOfFirst(bucket, sem.normalize(query));
  }

  /**
   * Which entries `set` keeps: all but the one it overwrites, at their places; or, for a new query, all of them in
   * order, without the oldest if the bucket was full. The new entry is in the place of the old one, or last.
   */
  lemma StoredEvictsOldest<V>(sem: Semantics, bucket: seq<Entry<V>>, query: string, value: V)
    requires Tidy(sem, bucket)
    ensures var q, s := sem.normalize(query), Stored(sem, bucket, query, value);
            var e := Entry(q, sem.embed(q), value);
            && (forall i :: 0 <= i < |bucket| && bucket[i].query == q ==> s == bucket[..i] + [e] + bucket[i + 1..])
            && ((forall i :: 0 <= i < |bucket| ==> bucket[i].query != q) ==>
                  if |bucket| < sem.maxEntries then s == bucket + [e]
                  else if bucket != [] then s == bucket[1..] + [e]
                  else s == [])
  {
    var q, s := sem.normalize(query), Stored(sem, bucket, query, value);
    IndexOfFirst(bucket, q);
    if bucket != [] {
      assert (bucket + [Entry(q, sem.embed(q), value)])[1..] == bucket[1..] + [Entry(q, sem.embed(q), value)];
    }
  }

  /**
   * What the query itself gets after `set`: if its vector is near enough to itself and entries are allowed at all,
   * something; and the very value stored, if no entry of another query is as near.
   */
  lemma StoredIsFound<V>(sem: Semantics, buckets: Buckets<V>, scope: Scope, query: string, value: V, r: Option<V>)
    requires sem.maxEntries > 0 && Tidy(sem, Bucket(buckets, scope))
    requires var v := sem.embed(sem.normalize(query)); sem.cosine(v, v) >= sem.threshold
    requires Answers(sem, buckets[scope := Stored(sem, Bucket(buckets, scope), query, value)], scope, query, r)
    ensures r.Some?
    ensures var v := sem.embed(sem.normalize(query));
            (forall e <- Bucket(buckets, scope) :: e.query != sem.normalize(query) ==>
               Similarity(sem, query, e) < sem.cosine(v, v))
            ==> r == Some(value)
  {
    var bucket := Bucket(buckets, scope);
    var q := sem.normalize(query);
    var e, i, s := Entry(q, sem.embed(q), value), IndexOf(bucket, q), Stored(sem, bucket, query, value);
    var k := if i < |bucket| then i else |s| - 1;
    assert Bucket(buckets[scope := s], scope) == s;
    assert s[k] == e && Similarity(sem, query, s[k]) >= sem.threshold;
    StoredTidy(sem, bucket, query, value);
    var best: nat :| Nearest(sem, s, query, best) && s[best].value == r.value;
    if best != k {
      assert s[best].query != q;
      assert s[best] in s;
      OldEntries(sem, bucket, query, value, s[best]);
    }
  }

  /** An entry of another query that is there after `set` was there before. */
  lemma OldEntries<V>(sem: Semantics, bucket: seq<Entry<V>>, query: string, value: V, e: Entry<V>)
    requires e in Stored(sem, bucket, query, value) && e.query != sem.normalize(query)
    ensures e in bucket
  {
  }

  class SemanticCache<V> {
    const sem: Semantics
    var buckets: Buckets<V>

    ghost predicate Valid()
      reads this
    {
      forall scope :: scope in buckets ==> Tidy(sem, buckets[scope])
    }

    constructor (sem: Semantics)
      ensures this.sem == sem && buckets == map[] && Valid()
    {
      this.sem := sem;
      buckets := map[];
    }

    /** src/rag/cache/semantic.py:33-48 */
    method Get(query: string, scope: Scope) returns (r: Option<V>)
      ensures Answers(sem, buckets, scope, query, r)
    {
      if scope !in buckets || buckets[scope] == [] {
        return None;
      }
      var entries := buckets[scope];
      var vector := sem.embed(sem.normalize(query));
      var best, bestScore := 0, sem.cosine(vector, entries[0].vector);
      for i := 1 to |entries|
        invariant Nearest(sem, entries[..i], query, best) && bestScore == Similarity(sem, query, entries[best])
      {
        var score := sem.cosine(vector, entries[i].vector);
        if score > bestScore {
          best, bestScore := i, score;
        }
      }
      assert entries[..|entries|] == entries;
      if bestScore < sem.threshold {
        return None;
      }
      r := Some(entries[best].value);
    }

    /** src/rag/cache/semantic.py:50-61 */
    method Set(query: string, value: V, scope: Scope)
      requires Valid()
      modifies this
      ensures Valid()
      ensures buckets == old(buckets)[scope := Stored(sem, Bucket(old(buckets), scope), query, value)]
    {
      var q := sem.normalize(query);
      var vector := sem.embed(q);
      var bucket := Bucket(buckets, scope);
      StoredTidy(sem, bucket, query, value);
      IndexOfFirst(bucket, q);
      var i := 0;
      while i < |bucket|
        invariant 0 <= i <= |bucket|
        invariant forall j :: 0 <= j < i ==> bucket[j].query != q
      {
        if bucket[i].query == q {
          buckets := buckets[scope := bucket[i := Entry(q, vector, value)]];
          return;
        }
        i := i + 1;
      }
      bucket := bucket + [Entry(q, vector, value)];
      if |bucket| > sem.maxEntries {
        bucket := bucket[1..];
      }
      buckets := buckets[scope := bucket];
    }
  }
}
