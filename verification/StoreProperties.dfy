/**
 What the authorization store promises over every run of its operations: it never mints
 a grant that the unbounded store would not hold, it answers like the unbounded store
 while its capacity suffices, every grant is accounted for, entries survive bounded
 pressure, and the composed entry operation closes the window its two halves leave open.
 */
module StoreProperties {
  import opened Lru
  import opened AuthorizationStore

  // ---------- The unbounded TTL map ----------

  /** The reference store: two plain maps, no capacity and no recency. */
  datatype Table = Table(authorizations: map<Key, int>, pending: map<Key, int>)

  predicate Live(m: map<Key, int>, k: Key, now: nat) {
    k in m && now <= m[k]
  }

  function TableStep(t: Table, op: Op): (r: (Table, Answer)) {
    var k := op.key;
    match op
    case Grant(_, now, ttl) =>
      (Table(t.authorizations[k := now + ttl], t.pending - {k}), Unit)
    case Claim(_, now) =>
      (t.(authorizations := t.authorizations - {k}), Flag(Live(t.authorizations, k, now)))
    case TrySetPending(_, now, ttl) =>
      if Live(t.pending, k, now) then (t, Flag(false))
      else (t.(pending := t.pending[k := now + ttl]), Flag(true))
    case UpdatePendingTtl(_, now, ttl) =>
      (if Live(t.pending, k, now) then t.(pending := t.pending[k := now + ttl]) else t, Unit)
    case PendingRemaining(_, now) =>
      (t, Millis(if Live(t.pending, k, now) then t.pending[k] - now else 0))
    case ClearPending(_) =>
      (t.(pending := t.pending - {k}), Unit)
    case ClaimOrSetPending(_, now, ttl) =>
      var t1 := t.(authorizations := t.authorizations - {k});
      if Live(t.authorizations, k, now) then (t1, Entry(Claimed))
      else if Live(t.pending, k, now) then (t1, Entry(AlreadyPending(t.pending[k] - now)))
      else (t1.(pending := t.pending[k := now + ttl]), Entry(PendingSet))
  }

  function TableRun(t: Table, ops: seq<Op>): (r: Table)
    decreases |ops|
  {
    if ops == [] then t else TableRun(TableStep(t, ops[0]).0, ops[1..])
  }

  function Answers(s: State, ops: seq<Op>): (r: seq<Answer>)
    decreases |ops|
  {
    if ops == [] then [] else [Step(s, ops[0]).answer] + Answers(Step(s, ops[0]).state, ops[1..])
  }

  function TableAnswers(t: Table, ops: seq<Op>): (r: seq<Answer>)
    decreases |ops|
  {
    if ops == [] then [] else [TableStep(t, ops[0]).1] + TableAnswers(TableStep(t, ops[0]).0, ops[1..])
  }

  ghost predicate Submap(a: map<Key, int>, b: map<Key, int>) {
    forall k :: k in a ==> k in b && a[k] == b[k]
  }

  /** An answer that lets an invocation execute. */
  predicate Spends(a: Answer) {
    a == Flag(true) || a == Entry(Claimed)
  }

  predicate IsClaim(op: Op) {
    op.Claim? || op.ClaimOrSetPending?
  }

  lemma GrantsStaySubmap(s: State, t: Table, op: Op)
    requires Submap(s.authorizations.table, t.authorizations)
    ensures Submap(Step(s, op).state.authorizations.table, TableStep(t, op).0.authorizations)
    ensures IsClaim(op) && Spends(Step(s, op).answer) ==> Spends(TableStep(t, op).1)
  {
  }

  /**
   Eviction can lose a grant but never mint one: after every run the bounded grant map
   is a submap of the unbounded one, and a claim that succeeds on the bounded store
   succeeds on the unbounded store.
   */
  lemma {:induction false} NeverMintsAGrant(s: State, t: Table, ops: seq<Op>)
    requires Submap(s.authorizations.table, t.authorizations)
    ensures Submap(Run(s, ops).authorizations.table, TableRun(t, ops).authorizations)
    ensures |Answers(s, ops)| == |TableAnswers(t, ops)| == |ops|
    ensures forall i :: 0 <= i < |ops| && IsClaim(ops[i]) && Spends(Answers(s, ops)[i]) ==> Spends(TableAnswers(t, ops)[i])
    decreases |ops|
  {
    if ops == [] {
    } else {
      GrantsStaySubmap(s, t, ops[0]);
      NeverMintsAGrant(Step(s, ops[0]).state, TableStep(t, ops[0]).0, ops[1..]);
      forall i | 0 <= i < |ops| && IsClaim(ops[i]) && Spends(Answers(s, ops)[i])
        ensures Spends(TableAnswers(t, ops)[i])
      {
        if i > 0 {
          assert ops[1..][i - 1] == ops[i];
        }
      }
    }
  }

  function KeysOf(ops: seq<Op>): (r: set<Key>) {
    set i | 0 <= i < |ops| :: ops[i].key
  }

  /** The reference store with the same entries. */
  function TableOf(s: State): (t: Table) {
    Table(s.authorizations.table, s.pending.table)
  }

  ghost predicate Within(s: State, keys: set<Key>) {
    && (forall k :: k in s.authorizations.table ==> k in keys)
    && (forall k :: k in s.pending.table ==> k in keys)
  }

  lemma RoomWithinCapacity(c: Cache<int>, k: Key, keys: set<Key>)
    requires c.Valid() && (forall x :: x in c.table ==> x in keys) && k in keys && |keys| <= c.cap && k !in c.table
    ensures |c.order| < c.cap
  {
    DistinctCount(c.order);
    assert (set x | x in c.order) == c.table.Keys;
    SubsetCount(c.table.Keys + {k}, keys);
  }

  lemma PutWithinCapacity(c: Cache<int>, k: Key, v: int, keys: set<Key>)
    requires c.Valid() && (forall x :: x in c.table ==> x in keys) && k in keys && |keys| <= c.cap
    ensures c.Put(k, v).table == c.table[k := v]
  {
    if k !in c.table {
      RoomWithinCapacity(c, k, keys);
    }
  }

  lemma PendingPut(s: State, k: Key, v: int, keys: set<Key>)
    requires s.Valid() && Within(s, keys) && k in keys && |keys| <= s.authorizations.cap
    ensures s.pending.Promote(k).Put(k, v).table == s.pending.table[k := v]
  {
    s.pending.PromoteValid(k);
    PutWithinCapacity(s.pending.Promote(k), k, v, keys);
  }

  ghost predicate Agrees(s: State, op: Op, keys: set<Key>) {
    var r := Step(s, op);
    TableStep(TableOf(s), op) == (TableOf(r.state), r.answer) && Within(r.state, keys)
  }

  lemma GrantAgrees(s: State, k: Key, now: nat, ttl: nat, keys: set<Key>)
    requires s.Valid() && Within(s, keys) && k in keys && |keys| <= s.authorizations.cap
    ensures Agrees(s, Grant(k, now, ttl), keys)
  {
    PutWithinCapacity(s.authorizations, k, now + ttl, keys);
    var r := Step(s, Grant(k, now, ttl)).state;
    assert r.authorizations.table == s.authorizations.table[k := now + ttl];
    assert r.pending.table == s.pending.table - {k};
  }

  lemma TrySetReads(s: State, k: Key, now: nat, ttl: nat, keys: set<Key>)
    requires Within(s, keys) && k in keys
    requires s.pending.Promote(k).Put(k, now + ttl).table == s.pending.table[k := now + ttl]
    ensures Agrees(s, TrySetPending(k, now, ttl), keys)
  {
  }

  lemma TrySetAgrees(s: State, k: Key, now: nat, ttl: nat, keys: set<Key>)
    requires s.Valid() && Within(s, keys) && k in keys && |keys| <= s.authorizations.cap
    ensures Agrees(s, TrySetPending(k, now, ttl), keys)
  {
    PendingPut(s, k, now + ttl, keys);
    TrySetReads(s, k, now, ttl, keys);
  }

  lemma UpdateReads(s: State, k: Key, now: nat, ttl: nat, keys: set<Key>)
    requires Within(s, keys) && k in keys
    requires s.pending.Promote(k).Put(k, now + ttl).table == s.pending.table[k := now + ttl]
    ensures Agrees(s, UpdatePendingTtl(k, now, ttl), keys)
  {
  }

  lemma UpdateAgrees(s: State, k: Key, now: nat, ttl: nat, keys: set<Key>)
    requires s.Valid() && Within(s, keys) && k in keys && |keys| <= s.authorizations.cap
    ensures Agrees(s, UpdatePendingTtl(k, now, ttl), keys)
  {
    PendingPut(s, k, now + ttl, keys);
    UpdateReads(s, k, now, ttl, keys);
  }

  lemma EntryReads(s: State, k: Key, now: nat, ttl: nat, keys: set<Key>)
    requires Within(s, keys) && k in keys
    requires s.pending.Promote(k).Put(k, now + ttl).table == s.pending.table[k := now + ttl]
    ensures Agrees(s, ClaimOrSetPending(k, now, ttl), keys)
  {
    var op := ClaimOrSetPending(k, now, ttl);
    var r := Step(s, op);
    var (t, answer) := TableStep(TableOf(s), op);
    assert r.answer == answer;
    assert r.state.authorizations.table == t.authorizations;
    assert r.state.pending.table == t.pending;
  }

  lemma EntryAgrees(s: State, k: Key, now: nat, ttl: nat, keys: set<Key>)
    requires s.Valid() && Within(s, keys) && k in keys && |keys| <= s.authorizations.cap
    ensures Agrees(s, ClaimOrSetPending(k, now, ttl), keys)
  {
    PendingPut(s, k, now + ttl, keys);
    EntryReads(s, k, now, ttl, keys);
  }

  lemma StepAgrees(s: State, op: Op, keys: set<Key>)
    requires s.Valid() && Within(s, keys) && op.key in keys && |keys| <= s.authorizations.cap
    ensures Agrees(s, op, keys)
  {
    match op
    case Grant(k, now, ttl) => GrantAgrees(s, k, now, ttl, keys);
    case TrySetPending(k, now, ttl) => TrySetAgrees(s, k, now, ttl, keys);
    case UpdatePendingTtl(k, now, ttl) => UpdateAgrees(s, k, now, ttl, keys);
    case ClaimOrSetPending(k, now, ttl) => EntryAgrees(s, k, now, ttl, keys);
    case _ =>
  }

  lemma {:induction false} AgreesFrom(s: State, ops: seq<Op>, keys: set<Key>)
    requires s.Valid() && Within(s, keys) && KeysOf(ops) <= keys && |keys| <= s.authorizations.cap
    ensures Answers(s, ops) == TableAnswers(TableOf(s), ops)
    ensures TableOf(Run(s, ops)) == TableRun(TableOf(s), ops)
    decreases |ops|
  {
    if ops == [] {
    } else {
      assert ops[0].key in KeysOf(ops);
      StepAgrees(s, ops[0], keys);
      forall k | k in KeysOf(ops[1..]) ensures k in keys {
        var i :| 0 <= i < |ops[1..]| && k == ops[1..][i].key;
        assert k == ops[i + 1].key;
      }
      StepValid(s, ops[0]);
      AgreesFrom(Step(s, ops[0]).state, ops[1..], keys);
    }
  }

  /**
   While a run names no more distinct identities than the capacity, the store answers
   every operation exactly as the unbounded TTL map does.
   */
  lemma AgreesWithinCapacity(maxEntries: nat, ops: seq<Op>)
    requires |KeysOf(ops)| <= EmptyState(maxEntries).authorizations.cap
    ensures Answers(EmptyState(maxEntries), ops) == TableAnswers(Table(map[], map[]), ops)
    ensures TableOf(Run(EmptyState(maxEntries), ops)) == TableRun(Table(map[], map[]), ops)
  {
    AgreesFrom(EmptyState(maxEntries), ops, KeysOf(ops));
  }

  // ---------- Grant conservation ----------

  /** What became of every grant, by identity. */
  datatype Ledger = Ledger(
    issued: multiset<Key>, claimed: multiset<Key>, expired: multiset<Key>,
    overwritten: multiset<Key>, evicted: multiset<Key>)

  const NO_GRANTS := Ledger(multiset{}, multiset{}, multiset{}, multiset{}, multiset{})

  function Granted(c: Cache<int>, k: Key, l: Ledger): (r: Ledger) {
    var full := k !in c.table && |c.order| == c.cap && c.order != [];
    l.(issued := l.issued + multiset{k},
       overwritten := l.overwritten + (if k in c.table then multiset{k} else multiset{}),
       evicted := l.evicted + (if full then multiset{c.order[0]} else multiset{}))
  }

  function Spent(c: Cache<int>, k: Key, now: nat, l: Ledger): (r: Ledger) {
    if k !in c.table then l
    else if now <= c.table[k] then l.(claimed := l.claimed + multiset{k})
    else l.(expired := l.expired + multiset{k})
  }

  function Entered(s: State, op: Op, l: Ledger): (r: Ledger) {
    if op.Grant? then Granted(s.authorizations, op.key, l)
    else if IsClaim(op) then Spent(s.authorizations, op.key, op.now, l)
    else l
  }

  function Booked(s: State, ops: seq<Op>, l: Ledger): (r: Ledger)
    decreases |ops|
  {
    if ops == [] then l else Booked(Step(s, ops[0]).state, ops[1..], Entered(s, ops[0], l))
  }

  ghost predicate Balanced(c: Cache<int>, l: Ledger) {
    l.issued == l.claimed + l.expired + l.overwritten + l.evicted + multiset(c.order)
  }

  lemma GrantBalances(c: Cache<int>, k: Key, v: int, l: Ledger)
    requires c.Valid() && Balanced(c, l)
    ensures Balanced(c.Put(k, v), Granted(c, k, l))
  {
    assert multiset(c.Put(k, v).order) == multiset(c.Kept(k)) + multiset{k};
    if k in c.table {
      WithoutMultiset(c.order, k);
      assert k in multiset(c.order);
    } else if |c.order| == c.cap {
      assert c.order == [c.order[0]] + c.order[1..];
    }
  }

  lemma ClaimBalances(c: Cache<int>, k: Key, now: nat, l: Ledger)
    requires c.Valid() && Balanced(c, l)
    ensures Balanced(c.Pop(k), Spent(c, k, now, l))
  {
    WithoutMultiset(c.order, k);
    if k in c.table {
      assert k in multiset(c.order);
    }
  }

  /** An operation changes the grant map as the ledger reads it, and books a claim exactly when it answers one. */
  lemma LedgerReadsStep(s: State, op: Op)
    ensures op.Grant? ==> Step(s, op).state.authorizations == s.authorizations.Put(op.key, op.now + op.ttl)
    ensures IsClaim(op) ==> Step(s, op).state.authorizations == s.authorizations.Pop(op.key)
    ensures IsClaim(op) ==> Spends(Step(s, op).answer) == s.LiveGrant(op.key, op.now)
    ensures !op.Grant? && !IsClaim(op) ==> Step(s, op).state.authorizations == s.authorizations
  {
  }

  lemma {:induction false} BalancedRun(s: State, ops: seq<Op>, l: Ledger)
    requires s.Valid() && Balanced(s.authorizations, l)
    ensures Balanced(Run(s, ops).authorizations, Booked(s, ops, l))
    decreases |ops|
  {
    if ops == [] {
    } else {
      LedgerReadsStep(s, ops[0]);
      if ops[0].Grant? {
        GrantBalances(s.authorizations, ops[0].key, ops[0].now + ops[0].ttl, l);
      } else if IsClaim(ops[0]) {
        ClaimBalances(s.authorizations, ops[0].key, ops[0].now, l);
      }
      StepValid(s, ops[0]);
      BalancedRun(Step(s, ops[0]).state, ops[1..], Entered(s, ops[0], l));
    }
  }

  /** How many of the answers of a run are successful claims on `k`. */
  function ClaimsAnswered(ops: seq<Op>, answers: seq<Answer>, k: Key): (n: nat)
    requires |ops| == |answers|
    decreases |ops|
  {
    if ops == [] then 0
    else (if IsClaim(ops[0]) && ops[0].key == k && Spends(answers[0]) then 1 else 0)
         + ClaimsAnswered(ops[1..], answers[1..], k)
  }

  function GrantsMade(ops: seq<Op>, k: Key): (n: nat)
    decreases |ops|
  {
    if ops == [] then 0 else (if ops[0].Grant? && ops[0].key == k then 1 else 0) + GrantsMade(ops[1..], k)
  }

  lemma {:induction false} AnswersLength(s: State, ops: seq<Op>)
    ensures |Answers(s, ops)| == |ops|
    decreases |ops|
  {
    if ops == [] {
    } else {
      AnswersLength(Step(s, ops[0]).state, ops[1..]);
    }
  }

  /** The ledger counts what the callers saw: every grant made, and every claim answered. */
  lemma {:induction false} LedgerCounts(s: State, ops: seq<Op>, l: Ledger, k: Key)
    ensures |Answers(s, ops)| == |ops|
    ensures Booked(s, ops, l).claimed[k] == l.claimed[k] + ClaimsAnswered(ops, Answers(s, ops), k)
    ensures Booked(s, ops, l).issued[k] == l.issued[k] + GrantsMade(ops, k)
    decreases |ops|
  {
    AnswersLength(s, ops);
    if ops == [] {
    } else {
      var s1 := Step(s, ops[0]).state;
      LedgerReadsStep(s, ops[0]);
      assert Answers(s, ops)[1..] == Answers(s1, ops[1..]);
      LedgerCounts(s1, ops[1..], Entered(s, ops[0], l), k);
    }
  }

  /**
   Grant conservation: in every run from an empty store, the grants made for each
   identity are exactly the claims answered with success, those dropped as expired by a
   claim, overwritten by a re-grant or evicted, and the one still held.  So no grant is
   consumed twice.
   */
  lemma GrantConservation(maxEntries: nat, ops: seq<Op>, k: Key)
    ensures var l := Booked(EmptyState(maxEntries), ops, NO_GRANTS);
            var held := Run(EmptyState(maxEntries), ops).authorizations.table;
            var answers := Answers(EmptyState(maxEntries), ops);
            && |answers| == |ops|
            && GrantsMade(ops, k) == ClaimsAnswered(ops, answers, k) + l.expired[k] + l.overwritten[k] + l.evicted[k]
                                     + if k in held then 1 else 0
  {
    BalancedRun(EmptyState(maxEntries), ops, NO_GRANTS);
    LedgerCounts(EmptyState(maxEntries), ops, NO_GRANTS, k);
    RunValid(EmptyState(maxEntries), ops);
    DistinctOnce(Run(EmptyState(maxEntries), ops).authorizations.order, k);
  }

  lemma {:induction false} DistinctOnce(order: seq<Key>, k: Key)
    requires Distinct(order)
    ensures multiset(order)[k] == if k in order then 1 else 0
  {
    if order == [] {
    } else {
      assert order == [order[0]] + order[1..];
      DistinctOnce(order[1..], k);
    }
  }

  // ---------- Survival under pressure ----------

  /** What an operation does to the grant map. */
  function GrantAccesses(op: Op): (r: seq<Access<int>>) {
    match op
    case Grant(k, now, ttl) => [Write(k, now + ttl)]
    case Claim(k, _) => [Remove(k)]
    case ClaimOrSetPending(k, _, _) => [Remove(k)]
    case _ => []
  }

  /** What an operation does to the pending map, which depends on what it finds there. */
  function PendingAccesses(s: State, op: Op): (r: seq<Access<int>>) {
    match op
    case Grant(k, _, _) => [Remove(k)]
    case Claim(_, _) => []
    case ClearPending(k) => [Remove(k)]
    case PendingRemaining(k, _) => [Read(k)]
    case TrySetPending(k, now, ttl) =>
      if s.LivePending(k, now) then [Read(k)] else [Read(k), Write(k, now + ttl)]
    case UpdatePendingTtl(k, now, ttl) =>
      if s.LivePending(k, now) then [Read(k), Write(k, now + ttl)] else [Read(k)]
    case ClaimOrSetPending(k, now, ttl) =>
      if s.LiveGrant(k, now) then []
      else if s.LivePending(k, now) then [Read(k)]
      else [Read(k), Write(k, now + ttl)]
  }

  function GrantTrace(ops: seq<Op>): (r: seq<Access<int>>)
    decreases |ops|
  {
    if ops == [] then [] else GrantAccesses(ops[0]) + GrantTrace(ops[1..])
  }

  function PendingTrace(s: State, ops: seq<Op>): (r: seq<Access<int>>)
    decreases |ops|
  {
    if ops == [] then [] else PendingAccesses(s, ops[0]) + PendingTrace(Step(s, ops[0]).state, ops[1..])
  }

  lemma ApplyOne(c: Cache<int>, a: Access<int>)
    ensures ApplyAll(c, [a]) == Apply(c, a)
  {
    assert [a][1..] == [];
    assert ApplyAll(Apply(c, a), []) == Apply(c, a);
  }

  lemma ApplyTwo(c: Cache<int>, a: Access<int>, b: Access<int>)
    ensures ApplyAll(c, [a]) == Apply(c, a)
    ensures ApplyAll(c, [a, b]) == Apply(Apply(c, a), b)
  {
    assert [a, b][1..] == [b];
    ApplyOne(c, a);
    ApplyOne(Apply(c, a), b);
  }

  lemma GrantAccessesExplain(s: State, op: Op)
    ensures Step(s, op).state.authorizations == ApplyAll(s.authorizations, GrantAccesses(op))
  {
    if op.Grant? {
      ApplyOne(s.authorizations, Write(op.key, op.now + op.ttl));
    } else if IsClaim(op) {
      ApplyOne(s.authorizations, Remove(op.key));
    }
  }

  lemma SetAccessesExplain(s: State, k: Key, now: nat, ttl: nat)
    ensures DoTrySetPending(s, k, now, ttl).0.pending
            == ApplyAll(s.pending, PendingAccesses(s, TrySetPending(k, now, ttl)))
    ensures DoUpdatePendingTtl(s, k, now, ttl).pending
            == ApplyAll(s.pending, PendingAccesses(s, UpdatePendingTtl(k, now, ttl)))
  {
    ApplyTwo(s.pending, Read(k), Write(k, now + ttl));
  }

  lemma EntryAccessesExplain(s: State, k: Key, now: nat, ttl: nat)
    ensures DoClaimOrSetPending(s, k, now, ttl).0.pending
            == ApplyAll(s.pending, PendingAccesses(s, ClaimOrSetPending(k, now, ttl)))
  {
    ApplyTwo(s.pending, Read(k), Write(k, now + ttl));
  }

  lemma PendingAccessesExplain(s: State, op: Op)
    ensures Step(s, op).state.pending == ApplyAll(s.pending, PendingAccesses(s, op))
  {
    match op
    case Grant(k, now, ttl) => ApplyOne(s.pending, Remove(k));
    case Claim(_, _) =>
    case ClearPending(k) => ApplyOne(s.pending, Remove(k));
    case PendingRemaining(k, _) => ApplyOne(s.pending, Read(k));
    case TrySetPending(k, now, ttl) => SetAccessesExplain(s, k, now, ttl);
    case UpdatePendingTtl(k, now, ttl) => SetAccessesExplain(s, k, now, ttl);
    case ClaimOrSetPending(k, now, ttl) => EntryAccessesExplain(s, k, now, ttl);
  }

  /** Each map changes through its own accesses alone, so pressure on one never evicts from the other. */
  lemma AccessesExplainStep(s: State, op: Op)
    ensures Step(s, op).state.authorizations == ApplyAll(s.authorizations, GrantAccesses(op))
    ensures Step(s, op).state.pending == ApplyAll(s.pending, PendingAccesses(s, op))
    ensures forall a :: a in GrantAccesses(op) + PendingAccesses(s, op) ==> a.key == op.key
  {
    GrantAccessesExplain(s, op);
    PendingAccessesExplain(s, op);
  }

  lemma {:induction false} TracesExplainRun(s: State, ops: seq<Op>)
    ensures Run(s, ops).authorizations == ApplyAll(s.authorizations, GrantTrace(ops))
    ensures Run(s, ops).pending == ApplyAll(s.pending, PendingTrace(s, ops))
    ensures forall a :: a in GrantTrace(ops) + PendingTrace(s, ops) ==> exists op :: op in ops && a.key == op.key
    decreases |ops|
  {
    if ops == [] {
    } else {
      var op, s1 := ops[0], Step(s, ops[0]).state;
      AccessesExplainStep(s, op);
      TracesExplainRun(s1, ops[1..]);
      ApplyAllAppend(s.authorizations, GrantAccesses(op), GrantTrace(ops[1..]));
      ApplyAllAppend(s.pending, PendingAccesses(s, op), PendingTrace(s1, ops[1..]));
      forall a | a in GrantTrace(ops) + PendingTrace(s, ops)
        ensures exists op :: op in ops && a.key == op.key
      {
        if a in GrantAccesses(op) + PendingAccesses(s, op) {
          assert op in ops && a.key == op.key;
        } else {
          assert a in GrantTrace(ops[1..]) + PendingTrace(s1, ops[1..]);
        }
      }
    }
  }

  /** The operations that change the grant map, leaving out those on `k` that leave its grant alone. */
  lemma {:induction false} GrantTraceAvoids(ops: seq<Op>, k: Key)
    requires forall op :: op in ops && op.key == k ==> !op.Grant? && !IsClaim(op)
    ensures forall a :: a in GrantTrace(ops) ==> a.key != k
    ensures Touched(GrantTrace(ops)) == set op | op in ops && op.Grant? :: op.key
    decreases |ops|
  {
    if ops == [] {
    } else {
      GrantTraceAvoids(ops[1..], k);
      TouchedAppend(GrantAccesses(ops[0]), GrantTrace(ops[1..]));
      assert ops == [ops[0]] + ops[1..];
      assert Touched(GrantAccesses(ops[0])) == if ops[0].Grant? then {ops[0].key} else {};
    }
  }

  lemma WrittenLast(c: Cache<int>, k: Key, v: int)
    requires c.Valid()
    ensures c.Put(k, v).Valid() && k in c.Put(k, v).table && c.Put(k, v).table[k] == v
    ensures Newer(c.Put(k, v).order, k) == {}
  {
    c.PutValid(k, v);
    JustUsed(c, Write(k, v));
  }

  function GrantedKeys(ops: seq<Op>): (r: set<Key>) {
    set op | op in ops && op.Grant? :: op.key
  }

  /**
   Grant survival: a grant that nobody claims or overwrites is still there, with its
   expiry, after any run in which fewer than `cap` other identities are granted,
   however much happens to the pending map.
   */
  lemma GrantSurvives(s: State, k: Key, now: nat, ttl: nat, ops: seq<Op>)
    requires s.Valid()
    requires forall op :: op in ops && op.key == k ==> !op.Grant? && !IsClaim(op)
    requires |GrantedKeys(ops)| < s.authorizations.cap
    ensures var final := Run(DoGrant(s, k, now, ttl), ops).authorizations.table;
            k in final && final[k] == now + ttl
  {
    var s1 := DoGrant(s, k, now, ttl);
    WrittenLast(s.authorizations, k, now + ttl);
    GrantTraceAvoids(ops, k);
    TracesExplainRun(s1, ops);
    Survives(s1.authorizations, k, GrantTrace(ops), Touched(GrantTrace(ops)));
  }

  /**
   Pending survival: a pending entry outlives every run in which nothing accesses it in
   the pending map, as long as the identities used there since its own last use, before
   the run or during it, are fewer than `cap`; however many grants are issued or claimed
   meanwhile, its own included.
   */
  lemma PendingSurvives(s: State, k: Key, ops: seq<Op>)
    requires s.Valid() && k in s.pending.table
    requires forall a :: a in PendingTrace(s, ops) ==> a.key != k
    requires |Newer(s.pending.order, k) + Touched(PendingTrace(s, ops))| < s.pending.cap
    ensures k in Run(s, ops).pending.table && Run(s, ops).pending.table[k] == s.pending.table[k]
  {
    TracesExplainRun(s, ops);
    Survives(s.pending, k, PendingTrace(s, ops), Newer(s.pending.order, k) + Touched(PendingTrace(s, ops)));
  }

  // ---------- The composed entry operation ----------

  /** The composed operation is `claim` and then `try_set_pending`, uninterrupted and at one instant. */
  lemma ComposedIsClaimThenTrySet(s: State, k: Key, now: nat, ttl: nat)
    ensures var (composed, answer) := DoClaimOrSetPending(s, k, now, ttl);
            var (claimedState, claimed) := DoClaim(s, k, now);
            var (setState, set_) := DoTrySetPending(claimedState, k, now, ttl);
            if claimed then answer == Claimed && composed == claimedState
            else composed == setState && answer == if set_ then PendingSet
                 else AlreadyPending(DoPendingRemaining(claimedState, k, now).1)
  {
  }

  /**
   What other tasks may do to `k` while one caller is on its way to the store: grant it,
   or read, retime or set its pending entry, as long as what they write is live for the
   caller.  A clear, an expiry and a competing claim are what it leaves out.
   */
  predicate Harmless(op: Op, k: Key, now: nat) {
    op.key == k ==>
      || op.PendingRemaining?
      || ((op.Grant? || op.UpdatePendingTtl? || op.TrySetPending?) && now <= op.now + op.ttl)
  }

  ghost predicate Covered(s: State, k: Key, now: nat, seen: set<Key>) {
    || (s.LivePending(k, now) && Newer(s.pending.order, k) <= seen)
    || (s.LiveGrant(k, now) && Newer(s.authorizations.order, k) <= seen)
  }

  lemma CoveredByGrant(s: State, op: Op, k: Key, now: nat, seen: set<Key>)
    requires s.Valid() && op.Grant? && op.key == k && now <= op.now + op.ttl
    ensures Covered(Step(s, op).state, k, now, seen)
  {
    WrittenLast(s.authorizations, k, op.now + op.ttl);
  }

  /** Reading a live pending entry keeps it and makes it the newest. */
  lemma ReadKeeps(c: Cache<int>, k: Key)
    requires c.Valid() && k in c.table
    ensures c.Promote(k).Valid() && k in c.Promote(k).table && c.Promote(k).table[k] == c.table[k]
    ensures Newer(c.Promote(k).order, k) == {}
  {
    c.PromoteValid(k);
    JustUsed(c, Read(k));
  }

  lemma CoveredByPending(s: State, op: Op, k: Key, now: nat, seen: set<Key>)
    requires s.Valid() && s.LivePending(k, now) && op.key == k && Harmless(op, k, now) && !op.Grant?
    ensures Covered(Step(s, op).state, k, now, seen)
  {
    ReadKeeps(s.pending, k);
    if !op.PendingRemaining? {
      WrittenLast(s.pending.Promote(k), k, op.now + op.ttl);
    }
  }

  lemma CoveredSameKey(s: State, op: Op, k: Key, now: nat, seen: set<Key>)
    requires s.Valid() && Covered(s, k, now, seen) && op.key == k && Harmless(op, k, now)
    ensures Covered(Step(s, op).state, k, now, seen)
  {
    if op.Grant? {
      CoveredByGrant(s, op, k, now, seen);
    } else if s.LivePending(k, now) {
      CoveredByPending(s, op, k, now, seen);
    } else {
      assert Step(s, op).state.authorizations == s.authorizations;
    }
  }

  lemma CoveredStep(s: State, op: Op, k: Key, now: nat, seen: set<Key>)
    requires s.Valid() && Covered(s, k, now, seen) && Harmless(op, k, now)
    requires op.key == k || op.key in seen
    requires |seen| < s.authorizations.cap
    ensures Covered(Step(s, op).state, k, now, seen)
  {
    if op.key == k {
      CoveredSameKey(s, op, k, now, seen);
    } else {
      AccessesExplainStep(s, op);
      var grants, pendings := GrantAccesses(op), PendingAccesses(s, op);
      assert forall a :: a in grants ==> a in grants + pendings;
      assert forall a :: a in pendings ==> a in grants + pendings;
      TouchedPair(grants, op.key);
      TouchedPair(pendings, op.key);
      if s.LivePending(k, now) && Newer(s.pending.order, k) <= seen {
        Survives(s.pending, k, pendings, seen);
      } else {
        Survives(s.authorizations, k, grants, seen);
      }
    }
  }

  lemma {:induction false} TouchedPair(accesses: seq<Access<int>>, k: Key)
    requires forall a :: a in accesses ==> a.key == k
    ensures Touched(accesses) <= {k}
    decreases |accesses|
  {
    if accesses == [] {
    } else {
      TouchedPair(accesses[1..], k);
    }
  }

  lemma {:induction false} CoveredRun(s: State, ops: seq<Op>, k: Key, now: nat, seen: set<Key>)
    requires s.Valid() && Covered(s, k, now, seen)
    requires forall op :: op in ops ==> Harmless(op, k, now) && (op.key == k || op.key in seen)
    requires |seen| < s.authorizations.cap
    ensures Covered(Run(s, ops), k, now, seen)
    decreases |ops|
  {
    if ops == [] {
    } else {
      CoveredStep(s, ops[0], k, now, seen);
      StepValid(s, ops[0]);
      CoveredRun(Step(s, ops[0]).state, ops[1..], k, now, seen);
    }
  }

  /**
   A caller that finds a live pending payment is never told to open a second one: with
   any number of live grants, retimes and reads of its own identity landing before its
   critical section, and any traffic on fewer than `cap` other identities, the composed
   operation claims or parks.
   */
  lemma ComposedNeverReopens(s: State, k: Key, now: nat, ttl: nat, others: seq<Op>)
    requires s.Valid() && s.LivePending(k, now)
    requires forall op :: op in others ==> Harmless(op, k, now)
    requires |Newer(s.pending.order, k) + KeysOf(others) - {k}| < s.authorizations.cap
    ensures DoClaimOrSetPending(Run(s, others), k, now, ttl).1 != PendingSet
  {
    var seen := Newer(s.pending.order, k) + KeysOf(others) - {k};
    NewerExcludes(s.pending.order, k);
    forall op | op in others ensures op.key == k || op.key in seen {
      var i :| 0 <= i < |others| && others[i] == op;
      assert others[i].key in KeysOf(others);
    }
    CoveredRun(s, others, k, now, seen);
  }

  lemma {:induction false} NewerExcludes(order: seq<Key>, k: Key)
    requires Distinct(order)
    ensures k !in Newer(order, k)
  {
    if order == [] || order[0] == k {
    } else {
      NewerExcludes(order[1..], k);
    }
  }

  /**
   The two calls of the split version do reopen: in every state with a live pending
   payment and no live grant, a grant landing between `claim` and `try_set_pending`
   makes the caller open a second payment while the paid grant sits unclaimed.
   */
  lemma SplitReopens(s: State, k: Key, now: nat, ttl: nat, grantTtl: nat)
    requires s.Valid() && s.LivePending(k, now) && !s.LiveGrant(k, now)
    ensures var (afterClaim, claimed) := DoClaim(s, k, now);
            var (final, reopened) := DoTrySetPending(DoGrant(afterClaim, k, now, grantTtl), k, now, ttl);
            !claimed && reopened && final.LiveGrant(k, now)
  {
    assert k in DoGrant(DoClaim(s, k, now).0, k, now, grantTtl).authorizations.table;
  }
}
