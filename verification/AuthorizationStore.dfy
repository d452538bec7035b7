/**
 The explicit-gating authorization store: two independent bounded LRU maps, one of
 granted authorizations and one of pending payments, each from a composite key to an
 expiry instant.  Expiry is lazy.

 Instants are whole milliseconds.  Every operation reads its clock before it takes the
 lock, so each one receives its captured instant `now` as a parameter and nothing
 relates the instants of different operations.
 */
module AuthorizationStore {
  import opened Lru

  datatype Identity = Identity(clientPubkey: string, invocationHash: string)

  function KeyOf(id: Identity): (k: Key) {
    Key(id.clientPubkey + ":" + id.invocationHash)
  }

  /** Distinct identities never share a composite key, because a hex public key holds no delimiter. */
  lemma KeyOfInjective(a: Identity, b: Identity)
    requires ':' !in a.clientPubkey && ':' !in b.clientPubkey
    ensures KeyOf(a) == KeyOf(b) <==> a == b
  {
    if KeyOf(a) == KeyOf(b) {
      var text := KeyOf(a).text;
      var i, j := |a.clientPubkey|, |b.clientPubkey|;
      assert text[i] == ':' && text[j] == ':';
      assert text[..i] == a.clientPubkey && text[..j] == b.clientPubkey;
      assert text[i + 1..] == a.invocationHash && text[j + 1..] == b.invocationHash;
    }
  }

  // ---------- Operations as functions of the two maps ----------

  datatype ClaimOrPending = Claimed | PendingSet | AlreadyPending(remainingMs: nat)

  datatype State = State(authorizations: Cache<int>, pending: Cache<int>) {
    ghost predicate Valid() {
      authorizations.Valid() && pending.Valid() && authorizations.cap == pending.cap
    }

    predicate LiveGrant(k: Key, now: nat) {
      k in authorizations.table && now <= authorizations.table[k]
    }

    predicate LivePending(k: Key, now: nat) {
      k in pending.table && now <= pending.table[k]
    }
  }

  function EmptyState(maxEntries: nat): (s: State)
    ensures s.Valid()
    ensures s.authorizations.table == map[] && s.pending.table == map[]
  {
    var cap := if maxEntries == 0 then 1 else maxEntries;
    State(Empty(cap), Empty(cap))
  }

  function Remaining(expires: int, now: nat): (ms: nat) {
    if now < expires then expires - now else 0
  }

  datatype Op =
    | Grant(key: Key, now: nat, ttl: nat)
    | Claim(key: Key, now: nat)
    | TrySetPending(key: Key, now: nat, ttl: nat)
    | UpdatePendingTtl(key: Key, now: nat, ttl: nat)
    | PendingRemaining(key: Key, now: nat)
    | ClearPending(key: Key)
    | ClaimOrSetPending(key: Key, now: nat, ttl: nat)

  datatype Answer = Unit | Flag(flag: bool) | Millis(ms: nat) | Entry(entry: ClaimOrPending)

  datatype Outcome = Outcome(state: State, answer: Answer)

  function DoGrant(s: State, k: Key, now: nat, ttl: nat): (r: State) {
    State(s.authorizations.Put(k, now + ttl), s.pending.Pop(k))
  }

  function DoClaim(s: State, k: Key, now: nat): (r: (State, bool)) {
    (s.(authorizations := s.authorizations.Pop(k)), s.LiveGrant(k, now))
  }

  function DoTrySetPending(s: State, k: Key, now: nat, ttl: nat): (r: (State, bool)) {
    var read := s.pending.Promote(k);
    if s.LivePending(k, now) then (s.(pending := read), false)
    else (s.(pending := read.Put(k, now + ttl)), true)
  }

  function DoUpdatePendingTtl(s: State, k: Key, now: nat, ttl: nat): (r: State) {
    var read := s.pending.Promote(k);
    if s.LivePending(k, now) then s.(pending := read.Put(k, now + ttl)) else s.(pending := read)
  }

  function DoPendingRemaining(s: State, k: Key, now: nat): (r: (State, nat)) {
    (s.(pending := s.pending.Promote(k)), if k in s.pending.table then Remaining(s.pending.table[k], now) else 0)
  }

  function DoClearPending(s: State, k: Key): (r: State) {
    s.(pending := s.pending.Pop(k))
  }

  function DoClaimOrSetPending(s: State, k: Key, now: nat, ttl: nat): (r: (State, ClaimOrPending)) {
    var s1 := s.(authorizations := s.authorizations.Pop(k));
    if s.LiveGrant(k, now) then (s1, Claimed)
    else
      var read := s.pending.Promote(k);
      if s.LivePending(k, now) then
        (s1.(pending := read), AlreadyPending(Remaining(s.pending.table[k], now)))
      else (s1.(pending := read.Put(k, now + ttl)), PendingSet)
  }

  function Step(s: State, op: Op): (r: Outcome)
  {
    match op
    case Grant(k, now, ttl) => Outcome(DoGrant(s, k, now, ttl), Unit)
    case Claim(k, now) => var (s', b) := DoClaim(s, k, now); Outcome(s', Flag(b))
    case TrySetPending(k, now, ttl) => var (s', b) := DoTrySetPending(s, k, now, ttl); Outcome(s', Flag(b))
    case UpdatePendingTtl(k, now, ttl) => Outcome(DoUpdatePendingTtl(s, k, now, ttl), Unit)
    case PendingRemaining(k, now) => var (s', ms) := DoPendingRemaining(s, k, now); Outcome(s', Millis(ms))
    case ClearPending(k) => Outcome(DoClearPending(s, k), Unit)
    case ClaimOrSetPending(k, now, ttl) => var (s', e) := DoClaimOrSetPending(s, k, now, ttl); Outcome(s', Entry(e))
  }

  lemma GrantsValid(s: State, op: Op)
    requires s.authorizations.Valid()
    ensures Step(s, op).state.authorizations.Valid()
    ensures Step(s, op).state.authorizations.cap == s.authorizations.cap
  {
    if op.Grant? {
      s.authorizations.PutValid(op.key, op.now + op.ttl);
    } else if op.Claim? || op.ClaimOrSetPending? {
      s.authorizations.PopValid(op.key);
    }
  }

  lemma PendingsValid(s: State, op: Op)
    requires s.pending.Valid()
    ensures Step(s, op).state.pending.Valid()
    ensures Step(s, op).state.pending.cap == s.pending.cap
  {
    if op.Grant? || op.ClearPending? {
      s.pending.PopValid(op.key);
    } else if op.PendingRemaining? {
      s.pending.PromoteValid(op.key);
    } else if !op.Claim? {
      PendingValid(s.pending, op.key, op.now + op.ttl);
    }
  }

  lemma StepValid(s: State, op: Op)
    requires s.Valid()
    ensures Step(s, op).state.Valid() && Step(s, op).state.authorizations.cap == s.authorizations.cap
  {
    GrantsValid(s, op);
    PendingsValid(s, op);
  }

  lemma GrantValid(s: State, k: Key, now: nat, ttl: nat)
    requires s.Valid()
    ensures DoGrant(s, k, now, ttl).Valid()
  {
    s.authorizations.PutValid(k, now + ttl);
    s.pending.PopValid(k);
  }

  lemma PendingValid(c: Cache<int>, k: Key, v: int)
    requires c.Valid()
    ensures c.Promote(k).Valid() && c.Promote(k).Put(k, v).Valid()
  {
    c.PromoteValid(k);
    c.Promote(k).PutValid(k, v);
  }

  /** The state after a run of operations, in lock order. */
  function Run(s: State, ops: seq<Op>): (r: State)
    decreases |ops|
  {
    if ops == [] then s else Run(Step(s, ops[0]).state, ops[1..])
  }

  lemma {:induction false} RunValid(s: State, ops: seq<Op>)
    requires s.Valid()
    ensures Run(s, ops).Valid() && Run(s, ops).authorizations.cap == s.authorizations.cap
    decreases |ops|
  {
    if ops == [] {
    } else {
      StepValid(s, ops[0]);
      RunValid(Step(s, ops[0]).state, ops[1..]);
    }
  }

  lemma {:induction false} RunAppend(s: State, a: seq<Op>, b: seq<Op>)
    ensures Run(s, a + b) == Run(Run(s, a), b)
    decreases |a|
  {
    if a == [] {
      assert a + b == b;
    } else {
      assert (a + b)[1..] == a[1..] + b;
      RunAppend(Step(s, a[0]).state, a[1..], b);
    }
  }

  // ---------- The store ----------

  /** The shared store.  Each method is one critical section of the source. */
  class Store {
    var authorizations: Cache<int>
    var pending: Cache<int>

    function Contents(): (s: State)
      reads this
    {
      State(authorizations, pending)
    }

    ghost predicate Valid()
      reads this
    {
      Contents().Valid()
    }

    constructor (maxEntries: nat)
      ensures Valid() && Contents() == EmptyState(maxEntries)
      ensures authorizations.cap == if maxEntries == 0 then 1 else maxEntries
    {
      var cap := if maxEntries == 0 then 1 else maxEntries;
      authorizations := Empty(cap);
      pending := Empty(cap);
    }

    method Grant(id: Identity, now: nat, ttlMs: nat)
      requires Valid()
      modifies this
      ensures Valid() && Contents() == DoGrant(old(Contents()), KeyOf(id), now, ttlMs)
    {
      var expiresAt := now + ttlMs;
      var key := KeyOf(id);
      GrantValid(Contents(), key, now, ttlMs);
      var waiting := pending.Pop(key);
      var held := authorizations.Put(key, expiresAt);
      assert State(held, waiting) == DoGrant(Contents(), key, now, ttlMs);
      pending := waiting;
      authorizations := held;
    }

    method Claim(id: Identity, now: nat) returns (live: bool)
      requires Valid()
      modifies this
      ensures Valid() && (Contents(), live) == DoClaim(old(Contents()), KeyOf(id), now)
    {
      var key := KeyOf(id);
      StepValid(Contents(), Op.Claim(key, now));
      var found := authorizations.Peek(key);
      authorizations := authorizations.Pop(key);
      match found
      case None => live := false;
      case Some(expiresAt) => live := now <= expiresAt;
    }

    method TrySetPending(id: Identity, now: nat, ttlMs: nat) returns (started: bool)
      requires Valid()
      modifies this
      ensures Valid() && (Contents(), started) == DoTrySetPending(old(Contents()), KeyOf(id), now, ttlMs)
    {
      var key := KeyOf(id);
      StepValid(Contents(), Op.TrySetPending(key, now, ttlMs));
      var existing := pending.Peek(key);
      pending := pending.Promote(key);
      if existing.Some? && now <= existing.value {
        return false;
      }
      pending := pending.Put(key, now + ttlMs);
      started := true;
    }

    method UpdatePendingTtl(id: Identity, now: nat, ttlMs: nat)
      requires Valid()
      modifies this
      ensures Valid() && Contents() == DoUpdatePendingTtl(old(Contents()), KeyOf(id), now, ttlMs)
    {
      var key := KeyOf(id);
      StepValid(Contents(), Op.UpdatePendingTtl(key, now, ttlMs));
      var existing := pending.Peek(key);
      pending := pending.Promote(key);
      if existing.Some? && now <= existing.value {
        pending := pending.Put(key, now + ttlMs);
      }
    }

    method GetPendingRemainingMs(id: Identity, now: nat) returns (ms: nat)
      requires Valid()
      modifies this
      ensures Valid() && (Contents(), ms) == DoPendingRemaining(old(Contents()), KeyOf(id), now)
    {
      var key := KeyOf(id);
      StepValid(Contents(), Op.PendingRemaining(key, now));
      var existing := pending.Peek(key);
      pending := pending.Promote(key);
      ms := if existing.Some? then Remaining(existing.value, now) else 0;
    }

    method ClearPending(id: Identity)
      requires Valid()
      modifies this
      ensures Valid() && Contents() == DoClearPending(old(Contents()), KeyOf(id))
    {
      StepValid(Contents(), Op.ClearPending(KeyOf(id)));
      pending := pending.Pop(KeyOf(id));
    }

    method ClaimOrSetPending(id: Identity, now: nat, ttlMs: nat) returns (r: ClaimOrPending)
      requires Valid()
      modifies this
      ensures Valid() && (Contents(), r) == DoClaimOrSetPending(old(Contents()), KeyOf(id), now, ttlMs)
    {
      var key := KeyOf(id);
      StepValid(Contents(), Op.ClaimOrSetPending(key, now, ttlMs));
      var granted := authorizations.Peek(key);
      authorizations := authorizations.Pop(key);
      if granted.Some? && now <= granted.value {
        return Claimed;
      }
      var existing := pending.Peek(key);
      pending := pending.Promote(key);
      if existing.Some? && now <= existing.value {
        return AlreadyPending(Remaining(existing.value, now));
      }
      pending := pending.Put(key, now + ttlMs);
      r := PendingSet;
    }
  }
}
