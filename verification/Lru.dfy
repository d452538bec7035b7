/**
 The bounded least-recently-used map that both server lifecycles and the client
 engine keep their state in.

 A cache is a recency sequence together with a map.  `order` lists the resident keys
 from least to most recently used, so `order[0]` is the next key to be evicted.
 */
module Lru {

  datatype Option<+T> = None | Some(value: T)

  /** Every cache of the repository is keyed by a string. */
  datatype Key = Key(text: string)

  // ---------- Sequences without repetition ----------

  ghost predicate Distinct(s: seq<Key>) {
    forall i, j :: 0 <= i < j < |s| ==> s[i] != s[j]
  }

  /** `s` with every occurrence of `k` removed, the rest in the same order. */
  function Without(s: seq<Key>, k: Key): (r: seq<Key>)
    ensures forall x :: x in r <==> x in s && x != k
    ensures |r| <= |s|
    ensures k !in s ==> r == s
  {
    if s == [] then []
    else if s[0] == k then Without(s[1..], k)
    else [s[0]] + Without(s[1..], k)
  }

  lemma {:induction false} WithoutDistinct(s: seq<Key>, k: Key)
    requires Distinct(s)
    ensures Distinct(Without(s, k))
    ensures k in s ==> |Without(s, k)| == |s| - 1
  {
    if s == [] {
    } else {
      WithoutDistinct(s[1..], k);
      if s[0] == k {
        assert k !in s[1..];
      } else {
        assert s[0] !in s[1..];
      }
    }
  }

  lemma {:induction false} WithoutMultiset(s: seq<Key>, k: Key)
    requires Distinct(s)
    ensures multiset(Without(s, k)) == multiset(s) - multiset{k}
  {
    if s == [] {
    } else {
      assert s == [s[0]] + s[1..];
      WithoutMultiset(s[1..], k);
      if s[0] == k {
        assert k !in s[1..];
      }
    }
  }

  /** The keys of `order` used more recently than `k`. */
  function Newer(order: seq<Key>, k: Key): (r: set<Key>) {
    if order == [] then {}
    else if order[0] == k then set x | x in order[1..]
    else Newer(order[1..], k)
  }

  lemma {:induction false} NewerAppend(order: seq<Key>, k: Key, x: Key)
    requires k in order
    ensures Newer(order + [x], k) == Newer(order, k) + {x}
  {
    assert (order + [x])[1..] == order[1..] + [x];
    if order[0] == k {
    } else {
      NewerAppend(order[1..], k, x);
    }
  }

  lemma {:induction false} NewerWithout(order: seq<Key>, k: Key, x: Key)
    requires k in order && x != k
    ensures Newer(Without(order, x), k) <= Newer(order, k)
  {
    if order[0] == k {
      assert Without(order, x) == [k] + Without(order[1..], x);
    } else {
      NewerWithout(order[1..], k, x);
      if order[0] != x {
        var rest := Without(order[1..], x);
        assert Without(order, x) == [order[0]] + rest;
        assert ([order[0]] + rest)[1..] == rest;
      }
    }
  }

  lemma {:induction false} NewerLast(order: seq<Key>, k: Key)
    requires k !in order
    ensures Newer(order + [k], k) == {}
  {
    if order == [] {
      assert (order + [k])[1..] == [];
    } else {
      assert (order + [k])[1..] == order[1..] + [k];
      NewerLast(order[1..], k);
    }
  }

  lemma {:induction false} DistinctCount(s: seq<Key>)
    requires Distinct(s)
    ensures |(set x | x in s)| == |s|
  {
    if s == [] {
    } else {
      DistinctCount(s[1..]);
      assert s[0] !in s[1..];
      assert (set x | x in s) == {s[0]} + (set x | x in s[1..]);
    }
  }

  lemma SubsetCount<T>(a: set<T>, b: set<T>)
    requires a <= b
    ensures |a| <= |b|
  {
    assert b == a + (b - a);
  }

  // ---------- The cache ----------

  datatype Cache<V> = Cache(cap: nat, order: seq<Key>, table: map<Key, V>) {

    ghost predicate Valid() {
      && 0 < cap
      && Distinct(order)
      && |order| <= cap
      && (forall k :: k in order <==> k in table)
    }

    /** Read without touching recency. */
    function Peek(k: Key): (r: Option<V>) {
      if k in table then Some(table[k]) else None
    }

    /** The effect of a read that marks `k` most recently used. */
    function Promote(k: Key): (c: Cache<V>)
      ensures c.table == table && c.cap == cap
    {
      if k in table then this.(order := Without(order, k) + [k]) else this
    }

    /** The keys that stay when `k` is put: a new key at capacity drops the oldest one. */
    function Kept(k: Key): (r: seq<Key>) {
      if k in table then Without(order, k)
      else if |order| >= cap && order != [] then order[1..]
      else order
    }

    function Put(k: Key, v: V): (c: Cache<V>)
      ensures c.cap == cap
    {
      var dropped := if k !in table && |order| >= cap && order != [] then {order[0]} else {};
      this.(order := Kept(k) + [k], table := (table - dropped)[k := v])
    }

    function Pop(k: Key): (c: Cache<V>)
      ensures c.table == table - {k} && c.cap == cap
    {
      this.(order := Without(order, k), table := table - {k})
    }

    lemma PromoteValid(k: Key)
      requires Valid()
      ensures Promote(k).Valid()
    {
      WithoutDistinct(order, k);
    }

    lemma PutValid(k: Key, v: V)
      requires Valid()
      ensures Put(k, v).Valid()
    {
      WithoutDistinct(order, k);
    }

    lemma PopValid(k: Key)
      requires Valid()
      ensures Pop(k).Valid()
    {
      WithoutDistinct(order, k);
    }
  }

  function Empty<V>(cap: nat): (c: Cache<V>)
    requires 0 < cap
    ensures c.Valid()
  {
    Cache(cap, [], map[])
  }

  // ---------- How long an entry survives ----------

  /** One access to a cache: a promoting read, a write or a removal. */
  datatype Access<V> = Read(key: Key) | Write(key: Key, value: V) | Remove(key: Key)

  function Apply<V>(c: Cache<V>, a: Access<V>): (r: Cache<V>)
    ensures r.cap == c.cap
  {
    match a
    case Read(k) => c.Promote(k)
    case Write(k, v) => c.Put(k, v)
    case Remove(k) => c.Pop(k)
  }

  function ApplyAll<V>(c: Cache<V>, accesses: seq<Access<V>>): (r: Cache<V>)
    ensures r.cap == c.cap
    decreases |accesses|
  {
    if accesses == [] then c else ApplyAll(Apply(c, accesses[0]), accesses[1..])
  }

  lemma ApplyValid<V>(c: Cache<V>, a: Access<V>)
    requires c.Valid()
    ensures Apply(c, a).Valid()
  {
    match a
    case Read(k) => c.PromoteValid(k);
    case Write(k, v) => c.PutValid(k, v);
    case Remove(k) => c.PopValid(k);
  }

  lemma {:induction false} ApplyAllAppend<V>(c: Cache<V>, a: seq<Access<V>>, b: seq<Access<V>>)
    ensures ApplyAll(c, a + b) == ApplyAll(ApplyAll(c, a), b)
    decreases |a|
  {
    if a == [] {
      assert a + b == b;
    } else {
      assert (a + b)[1..] == a[1..] + b;
      ApplyAllAppend(Apply(c, a[0]), a[1..], b);
    }
  }

  /** The keys that reads and writes in `accesses` name. */
  function Touched<V>(accesses: seq<Access<V>>): (r: set<Key>)
    decreases |accesses|
  {
    if accesses == [] then {}
    else (if accesses[0].Remove? then {} else {accesses[0].key}) + Touched(accesses[1..])
  }

  lemma {:induction false} TouchedAppend<V>(a: seq<Access<V>>, b: seq<Access<V>>)
    ensures Touched(a + b) == Touched(a) + Touched(b)
    decreases |a|
  {
    if a == [] {
      assert a + b == b;
    } else {
      assert (a + b)[1..] == a[1..] + b;
      TouchedAppend(a[1..], b);
    }
  }

  /** One access to another key keeps `k` unless `cap` other keys have been used since. */
  lemma SurvivesStep<V>(c: Cache<V>, k: Key, a: Access<V>, seen: set<Key>)
    requires c.Valid() && k in c.table && a.key != k
    requires Newer(c.order, k) <= seen && |seen| < c.cap
    requires !a.Remove? ==> a.key in seen
    ensures k in Apply(c, a).table && Apply(c, a).table[k] == c.table[k]
    ensures Newer(Apply(c, a).order, k) <= seen
  {
    var x := a.key;
    if a.Remove? {
      NewerWithout(c.order, k, x);
    } else if x in c.table {
      NewerWithout(c.order, k, x);
      NewerAppend(Without(c.order, x), k, x);
    } else if a.Write? {
      if |c.order| >= c.cap {
        if c.order[0] == k {
          DistinctCount(c.order[1..]);
          assert x !in c.order;
          SubsetCount((set y | y in c.order[1..]) + {x}, seen);
          assert false;
        }
        assert k in c.order[1..];
        NewerAppend(c.order[1..], k, x);
      } else {
        NewerAppend(c.order, k, x);
      }
    }
  }

  /**
   LRU survival: an entry outlives every run of accesses to other keys, in any mix,
   as long as fewer than `cap` distinct other keys are used after it.
   */
  lemma {:induction false} Survives<V>(c: Cache<V>, k: Key, accesses: seq<Access<V>>, seen: set<Key>)
    requires c.Valid() && k in c.table
    requires forall a :: a in accesses ==> a.key != k
    requires Newer(c.order, k) + Touched(accesses) <= seen && |seen| < c.cap
    ensures k in ApplyAll(c, accesses).table
    ensures ApplyAll(c, accesses).table[k] == c.table[k]
    ensures Newer(ApplyAll(c, accesses).order, k) <= seen
    decreases |accesses|
  {
    if accesses == [] {
    } else {
      SurvivesStep(c, k, accesses[0], seen);
      ApplyValid(c, accesses[0]);
      Survives(Apply(c, accesses[0]), k, accesses[1..], seen);
    }
  }

  /** An entry just written or read has no newer key, so it starts with the whole capacity ahead of it. */
  lemma JustUsed<V>(c: Cache<V>, a: Access<V>)
    requires c.Valid() && !a.Remove? && a.key in Apply(c, a).table
    ensures Newer(Apply(c, a).order, a.key) == {}
  {
    if a.key in c.table {
      NewerLast(Without(c.order, a.key), a.key);
    } else {
      NewerLast(c.Kept(a.key), a.key);
    }
  }
}
