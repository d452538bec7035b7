/**
 The pending-payment dedup cache of the transparent middleware.  It maps a request
 event id to the instant its dedup window closes and to the shared lifecycle (the
 `flight`) a duplicate delivery joins.
 */
module PendingPayments {
  import opened Lru

  const PENDING_PURGE_SCAN_LIMIT: nat := 25

  datatype Entry = Entry(expires: int, flight: nat)

  datatype Decision = Join(flight: nat) | Start | Refuse

  // ---------- The critical sections as functions of the cache ----------

  /** The keys among `keys` whose entry has expired, in the same order. */
  function ExpiredOf(table: map<Key, Entry>, keys: seq<Key>, now: int): (r: seq<Key>)
    ensures forall k :: k in r <==> k in keys && k in table && table[k].expires <= now
  {
    if keys == [] then []
    else
      var rest := ExpiredOf(table, keys[1..], now);
      if keys[0] in table && table[keys[0]].expires <= now then [keys[0]] + rest else rest
  }

  function PopAll(c: Cache<Entry>, keys: seq<Key>): (r: Cache<Entry>)
    decreases |keys|
  {
    if keys == [] then c else PopAll(c.Pop(keys[0]), keys[1..])
  }

  function Scanned(c: Cache<Entry>): (r: seq<Key>) {
    if |c.order| <= PENDING_PURGE_SCAN_LIMIT then c.order else c.order[..PENDING_PURGE_SCAN_LIMIT]
  }

  /** Drop the expired entries among the 25 least recently used ones. */
  function Purged(c: Cache<Entry>, now: int): (r: Cache<Entry>) {
    PopAll(c, ExpiredOf(c.table, Scanned(c), now))
  }

  /** The most recently used expired key, which the capacity branch pops. */
  function NewestExpired(table: map<Key, Entry>, order: seq<Key>, now: int): (r: Option<Key>)
    ensures r.None? ==> forall k :: k in order && k in table ==> now < table[k].expires
    ensures r.Some? ==> r.value in order && r.value in table && table[r.value].expires <= now
    decreases |order|
  {
    if order == [] then None
    else
      var last := order[|order| - 1];
      if last in table && table[last].expires <= now then Some(last)
      else NewestExpired(table, order[..|order| - 1], now)
  }

  /** Purge, look up, and join, refuse or start: one critical section of the handler. */
  function Admitted(c: Cache<Entry>, id: Key, now: int, ttl: nat, flight: nat): (r: (Cache<Entry>, Decision)) {
    var c1 := Purged(c, now);
    if id in c1.table && now < c1.table[id].expires then (c1, Join(c1.table[id].flight))
    else if |c1.order| == c1.cap then
      match NewestExpired(c1.table, c1.order, now)
      case None => (c1, Refuse)
      case Some(key) => (c1.Pop(key).Put(id, Entry(now + ttl, flight)), Start)
    else (c1.Put(id, Entry(now + ttl, flight)), Start)
  }

  /** The cleanup after a pre-invoice failure, guarded by flight identity. */
  function CleanedUp(c: Cache<Entry>, id: Key, flight: nat): (r: Cache<Entry>) {
    if id in c.table && c.table[id].flight == flight then c.Pop(id) else c
  }

  // ---------- What a critical section keeps ----------

  /** `r` holds some entries of `c`, among them every one still live at `now`. */
  ghost predicate KeepsLive(c: Cache<Entry>, r: Cache<Entry>, now: int) {
    && r.Valid() && r.cap == c.cap
    && (forall k :: k in r.table ==> k in c.table && r.table[k] == c.table[k])
    && (forall k :: k in c.table && now < c.table[k].expires ==> k in r.table)
  }

  lemma {:induction false} PopAllKeeps(c: Cache<Entry>, keys: seq<Key>, now: int)
    requires c.Valid() && forall k :: k in keys && k in c.table ==> c.table[k].expires <= now
    ensures KeepsLive(c, PopAll(c, keys), now)
    decreases |keys|
  {
    if keys == [] {
    } else {
      c.PopValid(keys[0]);
      PopAllKeeps(c.Pop(keys[0]), keys[1..], now);
    }
  }

  lemma PurgedKeeps(c: Cache<Entry>, now: int)
    requires c.Valid()
    ensures KeepsLive(c, Purged(c, now), now)
  {
    PopAllKeeps(c, ExpiredOf(c.table, Scanned(c), now), now);
  }

  lemma PutFits(c: Cache<Entry>, k: Key, e: Entry)
    requires c.Valid() && (|c.order| < c.cap || k in c.table)
    ensures c.Put(k, e).table == c.table[k := e]
  {
  }

  /** What the section leaves in the cache when it starts a lifecycle: the kept entries and the new one. */
  lemma StartKeeps(c: Cache<Entry>, id: Key, now: int, ttl: nat, flight: nat) returns (kept: Cache<Entry>)
    requires c.Valid() && Admitted(c, id, now, ttl, flight).1.Start?
    ensures KeepsLive(c, kept, now)
    ensures Admitted(c, id, now, ttl, flight).0.Valid()
    ensures Admitted(c, id, now, ttl, flight).0.table == kept.table[id := Entry(now + ttl, flight)]
    ensures Admitted(c, id, now, ttl, flight).0.cap == c.cap
    ensures id in c.table ==> c.table[id].expires <= now
  {
    PurgedKeeps(c, now);
    var c1 := Purged(c, now);
    var e := Entry(now + ttl, flight);
    if |c1.order| == c1.cap {
      var key := NewestExpired(c1.table, c1.order, now).value;
      c1.PopValid(key);
      WithoutDistinct(c1.order, key);
      kept := c1.Pop(key);
    } else {
      kept := c1;
    }
    PutFits(kept, id, e);
    kept.PutValid(id, e);
  }

  /** Whatever a section decides, every entry still live at its instant stays, unchanged. */
  lemma NoLiveEviction(c: Cache<Entry>, id: Key, now: int, ttl: nat, flight: nat, k: Key)
    requires c.Valid() && k in c.table && now < c.table[k].expires
    ensures var r := Admitted(c, id, now, ttl, flight).0.table; k in r && r[k] == c.table[k]
  {
    PurgedKeeps(c, now);
    if Admitted(c, id, now, ttl, flight).1.Start? {
      var kept := StartKeeps(c, id, now, ttl, flight);
    }
  }

  // ---------- The cache ----------

  class PendingCache {
    var cache: Cache<Entry>
    const refusePricedRequests: bool

    ghost predicate Valid()
      reads this
    {
      cache.Valid()
    }

    constructor (maxPendingPayments: nat)
      ensures Valid() && cache.table == map[]
      ensures cache.cap == (if maxPendingPayments == 0 then 1 else maxPendingPayments)
      ensures refusePricedRequests == (maxPendingPayments == 0)
    {
      cache := Empty(if maxPendingPayments == 0 then 1 else maxPendingPayments);
      refusePricedRequests := maxPendingPayments == 0;
    }

    method PurgeExpiredPending(now: int)
      requires Valid()
      modifies this`cache
      ensures Valid() && cache == Purged(old(cache), now)
    {
      var scanned := Scanned(cache);
      var expired: seq<Key> := [];
      var i := |scanned|;
      while i > 0
        invariant 0 <= i <= |scanned|
        invariant expired == ExpiredOf(cache.table, scanned[i..], now)
      {
        i := i - 1;
        var key := scanned[i];
        assert scanned[i..][1..] == scanned[i + 1..];
        if cache.table[key].expires <= now {
          expired := [key] + expired;
        }
      }
      PurgedKeeps(cache, now);
      i := 0;
      while i < |expired|
        invariant 0 <= i <= |expired|
        invariant PopAll(cache, expired[i..]) == Purged(old(cache), now)
      {
        assert expired[i..][0] == expired[i] && expired[i..][1..] == expired[i + 1..];
        cache := cache.Pop(expired[i]);
        i := i + 1;
      }
    }

    method FindExpired(now: int) returns (key: Option<Key>)
      requires Valid()
      ensures key == NewestExpired(cache.table, cache.order, now)
    {
      var i := |cache.order|;
      assert cache.order[..i] == cache.order;
      while i > 0
        invariant 0 <= i <= |cache.order|
        invariant NewestExpired(cache.table, cache.order, now) == NewestExpired(cache.table, cache.order[..i], now)
      {
        i := i - 1;
        assert cache.order[..i + 1][..i] == cache.order[..i];
        if cache.table[cache.order[i]].expires <= now {
          return Some(cache.order[i]);
        }
      }
      key := None;
    }

    method Admit(id: Key, now: int, paymentTtl: nat, flight: nat) returns (d: Decision)
      requires Valid()
      modifies this`cache
      ensures Valid()
      ensures refusePricedRequests ==> d == Refuse && cache == old(cache)
      ensures !refusePricedRequests ==> (cache, d) == Admitted(old(cache), id, now, paymentTtl, flight)
    {
      if refusePricedRequests {
        return Refuse;
      }
      PurgeExpiredPending(now);
      var found := cache.Peek(id);
      if found.Some? && now < found.value.expires {
        return Join(found.value.flight);
      }
      if |cache.order| == cache.cap {
        var expired := FindExpired(now);
        match expired {
          case None => return Refuse;
          case Some(key) =>
            cache.PopValid(key);
            cache := cache.Pop(key);
        }
      }
      cache.PutValid(id, Entry(now + paymentTtl, flight));
      cache := cache.Put(id, Entry(now + paymentTtl, flight));
      d := Start;
    }

    method CleanUp(id: Key, flight: nat)
      requires Valid()
      modifies this`cache
      ensures Valid() && cache == CleanedUp(old(cache), id, flight)
    {
      var found := cache.Peek(id);
      if found.Some? && found.value.flight == flight {
        cache.PopValid(id);
        cache := cache.Pop(id);
      }
    }
  }
}
