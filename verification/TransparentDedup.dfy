/**
 What the pending-payment cache promises.

 First, as a concurrent protocol: deliveries, lifecycle progress and cleanups interleave
 on the cache, with captured instants that may lag the clock, and an event id whose
 invoice went out is not charged again inside its window.  Second, as a data structure:
 the LRU order and the partial purge are unobservable.
 */
module TransparentDedup {
  import opened Lru
  import opened PendingPayments
  import Lifecycle

  // ---------- The protocol ----------

  /** One started lifecycle: the instant its handler captured and the clock when its section ran. */
  datatype Flight = Flight(id: Key, captured: nat, sectionClock: nat, world: Lifecycle.World, life: Lifecycle.Life)

  datatype State = State(maxPending: nat, ttl: nat, clock: nat, cache: Cache<Entry>, flights: seq<Flight>)

  function Init(maxPending: nat, ttl: nat): (s: State) {
    State(maxPending, ttl, 0, Empty(if maxPending == 0 then 1 else maxPending), [])
  }

  datatype Step =
    | Tick(delta: nat)
    | Deliver(id: Key, now: nat, world: Lifecycle.World)
    | Progress(flight: nat)
    | CleanUp(flight: nat)

  /** A run that ended in a failure before any invoice: the only kind whose entry is deleted. */
  predicate EndedPreInvoice(l: Lifecycle.Life) {
    l.phase.Done? && l.phase.result.Failed? && Lifecycle.IsPreInvoice(l.phase.result.failure)
  }

  predicate Enabled(s: State, step: Step) {
    match step
    case Tick(_) => true
    case Deliver(_, now, _) => now <= s.clock
    case Progress(f) => f < |s.flights|
    case CleanUp(f) => f < |s.flights| && EndedPreInvoice(s.flights[f].life)
  }

  function Decide(s: State, id: Key, now: nat): (r: (Cache<Entry>, Decision)) {
    if s.maxPending == 0 then (s.cache, Refuse) else Admitted(s.cache, id, now, s.ttl, |s.flights|)
  }

  function Next(s: State, step: Step): (r: State)
    requires Enabled(s, step)
  {
    match step
    case Tick(d) => s.(clock := s.clock + d)
    case Deliver(id, now, w) =>
      var (cache, d) := Decide(s, id, now);
      s.(cache := cache,
         flights := if d.Start? then s.flights + [Flight(id, now, s.clock, w, Lifecycle.START)] else s.flights)
    case Progress(f) =>
      var flight := s.flights[f];
      s.(flights := s.flights[f := flight.(life := Lifecycle.Advance(flight.world, flight.life))])
    case CleanUp(f) => s.(cache := CleanedUp(s.cache, s.flights[f].id, f))
  }

  ghost predicate Executable(s: State, steps: seq<Step>)
    decreases |steps|
  {
    steps == [] || (Enabled(s, steps[0]) && Executable(Next(s, steps[0]), steps[1..]))
  }

  ghost function Exec(s: State, steps: seq<Step>): (r: State)
    requires Executable(s, steps)
    decreases |steps|
  {
    if steps == [] then s else Exec(Next(s, steps[0]), steps[1..])
  }

  // ---------- The window invariant ----------

  ghost predicate EntriesOk(s: State) {
    forall k :: k in s.cache.table ==>
      var e := s.cache.table[k];
      e.flight < |s.flights| && s.flights[e.flight].id == k && e.expires == s.flights[e.flight].captured + s.ttl
  }

  /** Inside its window, a flight that has not failed before its invoice is the one in the cache. */
  ghost predicate Tracked(s: State, f: nat)
    requires f < |s.flights|
  {
    var flight := s.flights[f];
    !EndedPreInvoice(flight.life) && s.clock < flight.captured + s.ttl ==>
      flight.id in s.cache.table && s.cache.table[flight.id].flight == f
  }

  ghost predicate Separated(s: State, f: nat, g: nat)
    requires f < |s.flights| && g < |s.flights|
  {
    s.flights[f].id == s.flights[g].id ==>
      EndedPreInvoice(s.flights[f].life) || s.flights[f].captured + s.ttl <= s.flights[g].sectionClock
  }

  ghost predicate Inv(s: State) {
    && s.cache.Valid()
    && EntriesOk(s)
    && (forall f :: 0 <= f < |s.flights| ==> Lifecycle.LifeOk(s.flights[f].world, s.flights[f].life) && Tracked(s, f))
    && (forall f, g :: 0 <= f < g < |s.flights| ==> Separated(s, f, g))
  }

  /** A section that starts a lifecycle runs outside the window of every earlier flight it could duplicate. */
  lemma StartedOutsideWindows(s: State, id: Key, now: nat, f: nat)
    requires Inv(s) && now <= s.clock && Decide(s, id, now).1.Start?
    requires f < |s.flights| && s.flights[f].id == id && !EndedPreInvoice(s.flights[f].life)
    ensures s.flights[f].captured + s.ttl <= s.clock
  {
    assert Tracked(s, f);
    var kept := StartKeeps(s.cache, id, now, s.ttl, |s.flights|);
  }

  lemma StartTracked(s: State, id: Key, now: nat, w: Lifecycle.World, f: nat)
    requires Inv(s) && now <= s.clock && Decide(s, id, now).1.Start? && f < |s.flights|
    ensures Tracked(Next(s, Deliver(id, now, w)), f)
  {
    assert Tracked(s, f);
    if s.flights[f].id == id && !EndedPreInvoice(s.flights[f].life) {
      StartedOutsideWindows(s, id, now, f);
    } else {
      var kept := StartKeeps(s.cache, id, now, s.ttl, |s.flights|);
    }
  }

  lemma StartEntries(s: State, id: Key, now: nat, w: Lifecycle.World)
    requires Inv(s) && now <= s.clock && Decide(s, id, now).1.Start?
    ensures var s' := Next(s, Deliver(id, now, w));
            s'.cache.Valid() && EntriesOk(s') && |s'.flights| == |s.flights| + 1 && Tracked(s', |s.flights|)
  {
    var kept := StartKeeps(s.cache, id, now, s.ttl, |s.flights|);
  }

  lemma StartSeparated(s: State, id: Key, now: nat, w: Lifecycle.World, f: nat, g: nat)
    requires Inv(s) && now <= s.clock && Decide(s, id, now).1.Start? && f < g <= |s.flights|
    ensures Separated(Next(s, Deliver(id, now, w)), f, g)
  {
    if g < |s.flights| {
      assert Separated(s, f, g);
    } else if s.flights[f].id == id && !EndedPreInvoice(s.flights[f].life) {
      StartedOutsideWindows(s, id, now, f);
    }
  }

  lemma InvStart(s: State, id: Key, now: nat, w: Lifecycle.World)
    requires Inv(s) && now <= s.clock && Decide(s, id, now).1.Start?
    ensures Inv(Next(s, Deliver(id, now, w)))
  {
    var s' := Next(s, Deliver(id, now, w));
    StartEntries(s, id, now, w);
    forall f | 0 <= f < |s.flights| ensures Tracked(s', f) {
      StartTracked(s, id, now, w, f);
    }
    forall f, g | 0 <= f < g < |s'.flights| ensures Separated(s', f, g) {
      StartSeparated(s, id, now, w, f, g);
    }
  }

  lemma OnlyPurges(s: State, id: Key, now: nat)
    requires s.cache.Valid() && !Decide(s, id, now).1.Start?
    ensures KeepsLive(s.cache, Decide(s, id, now).0, now)
  {
    if s.maxPending != 0 {
      PurgedKeeps(s.cache, now);
    }
  }

  lemma InvNoStart(s: State, id: Key, now: nat, w: Lifecycle.World)
    requires Inv(s) && now <= s.clock && !Decide(s, id, now).1.Start?
    ensures Inv(Next(s, Deliver(id, now, w)))
  {
    var s' := Next(s, Deliver(id, now, w));
    OnlyPurges(s, id, now);
    forall f | 0 <= f < |s.flights| ensures Tracked(s', f) {
      assert Tracked(s, f);
    }
    forall f, g | 0 <= f < g < |s'.flights| ensures Separated(s', f, g) {
      assert Separated(s, f, g);
    }
  }

  lemma InvProgress(s: State, f: nat)
    requires Inv(s) && f < |s.flights|
    ensures Inv(Next(s, Progress(f)))
  {
    var s' := Next(s, Progress(f));
    Lifecycle.AdvanceOk(s.flights[f].world, s.flights[f].life);
    forall g | 0 <= g < |s'.flights| ensures Lifecycle.LifeOk(s'.flights[g].world, s'.flights[g].life) && Tracked(s', g) {
      assert Tracked(s, g);
    }
    forall g, h | 0 <= g < h < |s'.flights| ensures Separated(s', g, h) {
      assert Separated(s, g, h);
    }
  }

  lemma InvCleanUp(s: State, f: nat)
    requires Inv(s) && Enabled(s, CleanUp(f))
    ensures Inv(Next(s, CleanUp(f)))
  {
    var s' := Next(s, CleanUp(f));
    s.cache.PopValid(s.flights[f].id);
    forall g | 0 <= g < |s.flights| ensures Tracked(s', g) {
      assert Tracked(s, g);
    }
    forall g, h | 0 <= g < h < |s.flights| ensures Separated(s', g, h) {
      assert Separated(s, g, h);
    }
  }

  lemma InvTick(s: State, delta: nat)
    requires Inv(s)
    ensures Inv(Next(s, Tick(delta)))
  {
    var s' := Next(s, Tick(delta));
    forall f | 0 <= f < |s.flights| ensures Tracked(s', f) {
      assert Tracked(s, f);
    }
    forall f, g | 0 <= f < g < |s.flights| ensures Separated(s', f, g) {
      assert Separated(s, f, g);
    }
  }

  lemma InvStep(s: State, step: Step)
    requires Inv(s) && Enabled(s, step)
    ensures Inv(Next(s, step)) && Next(s, step).ttl == s.ttl
  {
    match step
    case Tick(delta) => InvTick(s, delta);
    case Deliver(id, now, w) =>
      if Decide(s, id, now).1.Start? {
        InvStart(s, id, now, w);
      } else {
        InvNoStart(s, id, now, w);
      }
    case Progress(f) => InvProgress(s, f);
    case CleanUp(f) => InvCleanUp(s, f);
  }

  lemma {:induction false} InvRun(s: State, steps: seq<Step>)
    requires Inv(s) && Executable(s, steps)
    ensures Inv(Exec(s, steps)) && Exec(s, steps).ttl == s.ttl
    decreases |steps|
  {
    if steps == [] {
    } else {
      InvStep(s, steps[0]);
      InvRun(Next(s, steps[0]), steps[1..]);
    }
  }

  /**
   No second charge inside the window: in every interleaving, if a lifecycle started
   with captured instant `t` has published `payment_required`, every later lifecycle for
   the same event id was started by a section running at `t + payment_ttl` or after.
   */
  lemma NoSecondChargeInWindow(maxPending: nat, ttl: nat, steps: seq<Step>, f: nat, g: nat)
    requires Executable(Init(maxPending, ttl), steps)
    requires f < g < |Exec(Init(maxPending, ttl), steps).flights|
    requires var s := Exec(Init(maxPending, ttl), steps);
             s.flights[f].id == s.flights[g].id && s.flights[f].life.published
    ensures var s := Exec(Init(maxPending, ttl), steps);
            s.flights[f].captured + ttl <= s.flights[g].sectionClock
  {
    InvRun(Init(maxPending, ttl), steps);
    var s := Exec(Init(maxPending, ttl), steps);
    assert Separated(s, f, g) && Lifecycle.LifeOk(s.flights[f].world, s.flights[f].life);
  }

  // ---------- The plain table of live payments ----------

  datatype Op = Request(id: Key, now: int, flight: nat) | Forget(id: Key, flight: nat)

  function Live(t: map<Key, Entry>, now: int): (r: set<Key>) {
    set k | k in t && now < t[k].expires
  }

  /** The reference: a table with no order and no purge, consulted by liveness alone. */
  function TableStep(capacity: nat, ttl: nat, t: map<Key, Entry>, op: Op): (r: (map<Key, Entry>, Option<Decision>)) {
    match op
    case Request(id, now, flight) =>
      if id in Live(t, now) then (t, Some(Join(t[id].flight)))
      else if |Live(t, now)| == capacity then (t, Some(Refuse))
      else (t[id := Entry(now + ttl, flight)], Some(Start))
    case Forget(id, flight) =>
      (if id in t && t[id].flight == flight then t - {id} else t, None)
  }

  function CacheStep(maxPending: nat, ttl: nat, c: Cache<Entry>, op: Op): (r: (Cache<Entry>, Option<Decision>)) {
    match op
    case Request(id, now, flight) =>
      if maxPending == 0 then (c, Some(Refuse))
      else var (c', d) := Admitted(c, id, now, ttl, flight); (c', Some(d))
    case Forget(id, flight) => (CleanedUp(c, id, flight), None)
  }

  function TableDecisions(capacity: nat, ttl: nat, t: map<Key, Entry>, ops: seq<Op>): (r: seq<Option<Decision>>)
    decreases |ops|
  {
    if ops == [] then []
    else var (t', d) := TableStep(capacity, ttl, t, ops[0]); [d] + TableDecisions(capacity, ttl, t', ops[1..])
  }

  function CacheDecisions(maxPending: nat, ttl: nat, c: Cache<Entry>, ops: seq<Op>): (r: seq<Option<Decision>>)
    decreases |ops|
  {
    if ops == [] then []
    else var (c', d) := CacheStep(maxPending, ttl, c, ops[0]); [d] + CacheDecisions(maxPending, ttl, c', ops[1..])
  }

  /** The captured instants never go back, starting from `last`. */
  ghost predicate Monotone(ops: seq<Op>, last: int)
    decreases |ops|
  {
    ops == [] ||
    if ops[0].Request? then last <= ops[0].now && Monotone(ops[1..], ops[0].now) else Monotone(ops[1..], last)
  }

  /** The cache holds entries of the table only, and all of its entries still live at `last`. */
  ghost predicate Mirrors(maxPending: nat, c: Cache<Entry>, t: map<Key, Entry>, last: int) {
    && c.Valid()
    && (if maxPending == 0 then t == map[] else c.cap == maxPending)
    && (forall k :: k in c.table ==> k in t && c.table[k] == t[k])
    && (forall k :: k in t && last < t[k].expires ==> k in c.table)
  }

  /** After the purge the cache is full of live entries exactly when the table's live entries reach capacity. */
  lemma FullMeansAllLive(c: Cache<Entry>, t: map<Key, Entry>, now: int)
    requires Mirrors(c.cap, c, t, now) && 0 < c.cap
    ensures (|c.order| == c.cap && NewestExpired(c.table, c.order, now).None?) <==> |Live(t, now)| == c.cap
  {
    var resident := set k | k in c.order;
    var dead := resident - Live(t, now);
    DistinctCount(c.order);
    assert resident == Live(t, now) + dead;
    match NewestExpired(c.table, c.order, now)
    case None => assert dead == {};
    case Some(k) => assert k in dead;
  }

  lemma RequestDecides(maxPending: nat, ttl: nat, c: Cache<Entry>, t: map<Key, Entry>, last: int, op: Op)
    requires Mirrors(maxPending, c, t, last) && op.Request? && last <= op.now && 0 < maxPending
    ensures CacheStep(maxPending, ttl, c, op).1 == TableStep(maxPending, ttl, t, op).1
  {
    PurgedKeeps(c, op.now);
    FullMeansAllLive(Purged(c, op.now), t, op.now);
  }

  lemma RequestMirrors(maxPending: nat, ttl: nat, c: Cache<Entry>, t: map<Key, Entry>, last: int, op: Op)
    requires Mirrors(maxPending, c, t, last) && op.Request? && last <= op.now && 0 < maxPending
    ensures CacheStep(maxPending, ttl, c, op).1 == TableStep(maxPending, ttl, t, op).1
    ensures Mirrors(maxPending, CacheStep(maxPending, ttl, c, op).0, TableStep(maxPending, ttl, t, op).0, op.now)
  {
    RequestDecides(maxPending, ttl, c, t, last, op);
    if Admitted(c, op.id, op.now, ttl, op.flight).1.Start? {
      var kept := StartKeeps(c, op.id, op.now, ttl, op.flight);
    } else {
      PurgedKeeps(c, op.now);
    }
  }

  lemma ForgetMirrors(maxPending: nat, ttl: nat, c: Cache<Entry>, t: map<Key, Entry>, last: int, op: Op)
    requires Mirrors(maxPending, c, t, last) && op.Forget?
    ensures Mirrors(maxPending, CacheStep(maxPending, ttl, c, op).0, TableStep(maxPending, ttl, t, op).0, last)
  {
    c.PopValid(op.id);
  }

  lemma {:induction false} DecidesLikeTable(
    maxPending: nat, ttl: nat, c: Cache<Entry>, t: map<Key, Entry>, last: int, ops: seq<Op>)
    requires Mirrors(maxPending, c, t, last) && Monotone(ops, last)
    ensures CacheDecisions(maxPending, ttl, c, ops) == TableDecisions(maxPending, ttl, t, ops)
    decreases |ops|
  {
    if ops == [] {
    } else {
      var op := ops[0];
      var (c', d) := CacheStep(maxPending, ttl, c, op);
      var (t', e) := TableStep(maxPending, ttl, t, op);
      var now := if op.Request? then op.now else last;
      if op.Forget? {
        ForgetMirrors(maxPending, ttl, c, t, last, op);
      } else if maxPending == 0 {
        assert Live(t, op.now) == {};
      } else {
        RequestMirrors(maxPending, ttl, c, t, last, op);
      }
      DecidesLikeTable(maxPending, ttl, c', t', now, ops[1..]);
    }
  }

  /**
   For every run whose captured instants do not go back, the cache decides exactly as a
   plain table of live payments: join a live id, refuse exactly when the live payments
   reach the configured maximum (zero included), start otherwise.  Recency order and
   purge depth are unobservable.
   */
  lemma RefinesLiveTable(maxPending: nat, ttl: nat, start: int, ops: seq<Op>)
    requires Monotone(ops, start)
    ensures CacheDecisions(maxPending, ttl, Empty(if maxPending == 0 then 1 else maxPending), ops)
            == TableDecisions(maxPending, ttl, map[], ops)
  {
    DecidesLikeTable(maxPending, ttl, Empty(if maxPending == 0 then 1 else maxPending), map[], start, ops);
  }

  lemma PutIntoEmpty(c: Cache<Entry>, k: Key, e: Entry)
    requires c.order == [] && c.table == map[]
    ensures c.Put(k, e) == Cache(c.cap, [k], map[k := e])
  {
    assert c.Put(k, e).table == map[k := e];
  }

  // ---------- Exactly which captured instants are safe ----------

  /** The captured instants of a run, in lock order. */
  function Instants(ops: seq<Op>): (r: seq<int>)
    decreases |ops|
  {
    if ops == [] then []
    else if ops[0].Request? then [ops[0].now] + Instants(ops[1..])
    else Instants(ops[1..])
  }

  /** Once an instant is at or above an earlier one, no later instant falls below it. */
  ghost predicate Valley(nows: seq<int>) {
    forall i, j, k :: 0 <= i < j < k < |nows| && nows[i] <= nows[j] ==> nows[j] <= nows[k]
  }

  ghost predicate Increasing(picks: seq<nat>, bound: nat) {
    && (forall i :: 0 <= i < |picks| ==> picks[i] < bound)
    && (forall i, j :: 0 <= i < j < |picks| ==> picks[i] < picks[j])
  }

  function Picked(nows: seq<int>, picks: seq<nat>): (r: seq<int>)
    requires forall i :: 0 <= i < |picks| ==> picks[i] < |nows|
  {
    seq(|picks|, i requires 0 <= i < |picks| => nows[picks[i]])
  }

  /** `ops` is a run of some of the requests that captured `nows`, in their order. */
  ghost predicate Drawn(ops: seq<Op>, nows: seq<int>) {
    exists picks: seq<nat> :: Increasing(picks, |nows|) && Instants(ops) == Picked(nows, picks)
  }

  ghost predicate Agree(maxPending: nat, ttl: nat, ops: seq<Op>) {
    CacheDecisions(maxPending, ttl, Empty(if maxPending == 0 then 1 else maxPending), ops)
    == TableDecisions(maxPending, ttl, map[], ops)
  }

  lemma ValleyTail(a: int, b: int, rest: seq<int>)
    requires Valley([a] + ([b] + rest))
    ensures Valley([b] + rest)
    ensures a <= b && rest != [] ==> b <= rest[0]
  {
    var nows := [a] + ([b] + rest);
    assert nows[1..] == [b] + rest;
    assert rest != [] ==> nows[0] == a && nows[1] == b && nows[2] == rest[0];
  }

  lemma {:induction false} ValleyAscends(ops: seq<Op>, last: int)
    requires Valley([last] + Instants(ops)) && (Instants(ops) == [] || last <= Instants(ops)[0])
    ensures Monotone(ops, last)
    decreases |ops|
  {
    if ops == [] {
    } else {
      if ops[0].Request? {
        ValleyTail(last, ops[0].now, Instants(ops[1..]));
        ValleyAscends(ops[1..], ops[0].now);
      } else {
        ValleyAscends(ops[1..], last);
      }
    }
  }

  /** While instants only fall, nothing expires: cache and table are the same. */
  ghost predicate Same(maxPending: nat, c: Cache<Entry>, t: map<Key, Entry>, last: int) {
    && c.Valid() && c.table == t && (if maxPending == 0 then t == map[] else c.cap == maxPending)
    && (forall k :: k in t ==> last <= t[k].expires)
  }

  lemma DescentKeeps(c: Cache<Entry>, id: Key, now: int, ttl: nat, flight: nat)
    requires c.Valid() && forall k :: k in c.table ==> now < c.table[k].expires
    ensures var (c', d) := Admitted(c, id, now, ttl, flight);
            c'.Valid() && c'.cap == c.cap
            && c'.table == if d.Start? then c.table[id := Entry(now + ttl, flight)] else c.table
  {
    if Admitted(c, id, now, ttl, flight).1.Start? {
      var kept := StartKeeps(c, id, now, ttl, flight);
      assert kept.table == c.table;
    } else {
      PurgedKeeps(c, now);
      assert Purged(c, now).table == c.table;
    }
  }

  lemma DescentSame(maxPending: nat, ttl: nat, c: Cache<Entry>, t: map<Key, Entry>, last: int, op: Op)
    requires Same(maxPending, c, t, last) && op.Request? && op.now < last && 0 < maxPending
    ensures CacheStep(maxPending, ttl, c, op).1 == TableStep(maxPending, ttl, t, op).1
    ensures Same(maxPending, CacheStep(maxPending, ttl, c, op).0, TableStep(maxPending, ttl, t, op).0, op.now)
  {
    RequestMirrors(maxPending, ttl, c, t, op.now, op);
    DescentKeeps(c, op.id, op.now, ttl, op.flight);
  }

  lemma ForgetSame(maxPending: nat, ttl: nat, c: Cache<Entry>, t: map<Key, Entry>, last: int, op: Op)
    requires Same(maxPending, c, t, last) && op.Forget?
    ensures Same(maxPending, CacheStep(maxPending, ttl, c, op).0, TableStep(maxPending, ttl, t, op).0, last)
  {
    c.PopValid(op.id);
  }

  lemma {:induction false} ValleyAgrees(
    maxPending: nat, ttl: nat, c: Cache<Entry>, t: map<Key, Entry>, last: int, ops: seq<Op>)
    requires Same(maxPending, c, t, last) && Valley([last] + Instants(ops))
    ensures CacheDecisions(maxPending, ttl, c, ops) == TableDecisions(maxPending, ttl, t, ops)
    decreases |ops|
  {
    if ops == [] {
    } else {
      var op := ops[0];
      var c', t' := CacheStep(maxPending, ttl, c, op).0, TableStep(maxPending, ttl, t, op).0;
      if op.Forget? {
        ForgetSame(maxPending, ttl, c, t, last, op);
        ValleyAgrees(maxPending, ttl, c', t', last, ops[1..]);
      } else if op.now < last {
        if maxPending == 0 {
          assert Live(t, op.now) == {};
        } else {
          DescentSame(maxPending, ttl, c, t, last, op);
        }
        ValleyTail(last, op.now, Instants(ops[1..]));
        ValleyAgrees(maxPending, ttl, c', t', op.now, ops[1..]);
      } else {
        ValleyAscends(ops, last);
        DecidesLikeTable(maxPending, ttl, c, t, last, ops);
      }
    }
  }

  function Above(nows: seq<int>): (r: int)
    ensures forall i :: 0 <= i < |nows| ==> nows[i] < r
  {
    if nows == [] then 0
    else var rest := Above(nows[1..]); if nows[0] < rest then rest else nows[0] + 1
  }

  lemma PickedValley(nows: seq<int>, picks: seq<nat>)
    requires Valley(nows) && Increasing(picks, |nows|)
    ensures Valley([Above(Picked(nows, picks))] + Picked(nows, picks))
  {
    var top, drawn := Above(Picked(nows, picks)), Picked(nows, picks);
    var all := [top] + drawn;
    forall i, j, k | 0 <= i < j < k < |all| && all[i] <= all[j] ensures all[j] <= all[k] {
      assert all[j] == drawn[j - 1] && all[k] == drawn[k - 1];
      if i > 0 {
        assert all[i] == nows[picks[i - 1]];
        assert picks[i - 1] < picks[j - 1] < picks[k - 1];
      }
    }
  }

  function Single(k: Key, e: Entry): (c: Cache<Entry>) {
    Cache(2, [k], map[k := e])
  }

  lemma StartsFirst(a: Key, now: int, ttl: nat, flight: nat)
    ensures CacheStep(2, ttl, Empty(2), Request(a, now, flight)) == (Single(a, Entry(now + ttl, flight)), Some(Start))
  {
    var c: Cache<Entry> := Empty(2);
    assert Purged(c, now) == c;
    PutIntoEmpty(c, a, Entry(now + ttl, flight));
  }

  lemma StartsAfterExpiry(a: Key, e: Entry, b: Key, now: int, ttl: nat, flight: nat)
    requires a != b && e.expires <= now
    ensures CacheStep(2, ttl, Single(a, e), Request(b, now, flight))
            == (Single(b, Entry(now + ttl, flight)), Some(Start))
  {
    var c := Single(a, e);
    assert ExpiredOf(c.table, [a], now) == [a];
    assert Purged(c, now) == PopAll(c.Pop(a), []) == c.Pop(a);
    assert c.Pop(a).order == [] && c.Pop(a).table == map[];
    PutIntoEmpty(c.Pop(a), b, Entry(now + ttl, flight));
  }

  lemma StartsBeside(b: Key, e: Entry, a: Key, now: int, ttl: nat, flight: nat)
    requires a != b && now < e.expires
    ensures CacheStep(2, ttl, Single(b, e), Request(a, now, flight)).1 == Some(Start)
  {
    assert ExpiredOf(Single(b, e).table, [b], now) == [];
  }

  /** A request that starts a lifecycle heads the decisions of the rest. */
  lemma StartHeads(ttl: nat, c: Cache<Entry>, op: Op, c': Cache<Entry>, rest: seq<Op>)
    requires CacheStep(2, ttl, c, op) == (c', Some(Start))
    ensures CacheDecisions(2, ttl, c, [op] + rest) == [Some(Start)] + CacheDecisions(2, ttl, c', rest)
  {
    assert ([op] + rest)[1..] == rest;
  }

  lemma StaleLast(b: Key, e: Entry, a: Key, t2: int, ttl: nat)
    requires a != b && t2 < e.expires
    ensures CacheDecisions(2, ttl, Single(b, e), [Request(a, t2, 2)]) == [Some(Start)]
  {
    var r3 := Request(a, t2, 2);
    StartsBeside(b, e, a, t2, ttl, 2);
    StartHeads(ttl, Single(b, e), r3, CacheStep(2, ttl, Single(b, e), r3).0, []);
    assert [r3] + [] == [r3];
  }

  lemma StaleMiddle(a: Key, b: Key, e: Entry, t1: int, t2: int, ttl: nat)
    requires a != b && e.expires <= t1 && t2 < t1
    ensures CacheDecisions(2, ttl, Single(a, e), [Request(b, t1, 1), Request(a, t2, 2)]) == [Some(Start), Some(Start)]
  {
    StartsAfterExpiry(a, e, b, t1, ttl, 1);
    StaleLast(b, Entry(t1 + ttl, 1), a, t2, ttl);
    StartHeads(ttl, Single(a, e), Request(b, t1, 1), Single(b, Entry(t1 + ttl, 1)), [Request(a, t2, 2)]);
    assert [Request(b, t1, 1)] + [Request(a, t2, 2)] == [Request(b, t1, 1), Request(a, t2, 2)];
  }

  lemma StaleCache(a: Key, b: Key, t0: int, t1: int, t2: int, ttl: nat, rest: seq<Op>, d: seq<Option<Decision>>)
    requires a != b && t0 + ttl == t1 && t2 < t1 && rest == [Request(b, t1, 1), Request(a, t2, 2)]
    requires d == CacheDecisions(2, ttl, Empty(2), [Request(a, t0, 0)] + rest)
    ensures |d| == 3 && d[2] == Some(Start)
  {
    StartsFirst(a, t0, ttl, 0);
    StartHeads(ttl, Empty(2), Request(a, t0, 0), Single(a, Entry(t1, 0)), rest);
    StaleMiddle(a, b, Entry(t1, 0), t1, t2, ttl);
  }

  lemma StaleTable(a: Key, b: Key, t0: int, t1: int, t2: int)
    requires a != b && t0 <= t1 && t2 < t1
    ensures TableDecisions(2, t1 - t0, map[], [Request(a, t0, 0), Request(b, t1, 1), Request(a, t2, 2)])
            == [Some(Start), Some(Start), Some(Join(0))]
  {
    var ttl := t1 - t0;
    var e0, e1 := Entry(t1, 0), Entry(t1 + ttl, 1);
    var m1, m2 := map[a := e0], map[a := e0, b := e1];
    assert Live(map[], t0) == {} && Live(m1, t1) == {};
    assert a in Live(m2, t2);
    var r1, r2, r3 := Request(a, t0, 0), Request(b, t1, 1), Request(a, t2, 2);
    assert [r1, r2, r3][1..] == [r2, r3] && [r2, r3][1..] == [r3] && [r3][1..] == [];
    assert TableStep(2, ttl, map[], r1) == (m1, Some(Start));
    assert TableStep(2, ttl, m1, r2) == (m2, Some(Start));
    assert TableDecisions(2, ttl, m2, [r3]) == [Some(Join(0))];
    assert TableDecisions(2, ttl, m1, [r2, r3]) == [Some(Start), Some(Join(0))];
  }

  lemma DrawnThree(ops: seq<Op>, nows: seq<int>, i: nat, j: nat, k: nat)
    requires i < j < k < |nows| && |ops| == 3 && ops[0].Request? && ops[1].Request? && ops[2].Request?
    requires ops[0].now == nows[i] && ops[1].now == nows[j] && ops[2].now == nows[k]
    ensures Drawn(ops, nows)
  {
    var picks: seq<nat> := [i, j, k];
    assert Instants(ops[1..][1..][1..]) == [];
    assert Instants(ops[1..][1..]) == [nows[k]];
    assert Instants(ops) == Picked(nows, picks) && Increasing(picks, |nows|);
  }

  /** An instant that falls below one that had not fallen itself can be told apart, with the right ttl. */
  lemma StaleInstantIsObservable(nows: seq<int>, i: nat, j: nat, k: nat)
    requires i < j < k < |nows| && nows[i] <= nows[j] && nows[k] < nows[j]
    ensures exists ttl: nat, ops :: Drawn(ops, nows) && !Agree(2, ttl, ops)
  {
    var a, b := Key("a"), Key("b");
    assert "a"[0] != "b"[0];
    var ops := [Request(a, nows[i], 0), Request(b, nows[j], 1), Request(a, nows[k], 2)];
    DrawnThree(ops, nows, i, j, k);
    var ttl := nows[j] - nows[i];
    StaleTable(a, b, nows[i], nows[j], nows[k]);
    assert ops == [ops[0]] + ops[1..] && ops[1..] == [ops[1], ops[2]];
    StaleCache(a, b, nows[i], nows[j], nows[k], ttl, ops[1..], CacheDecisions(2, ttl, Empty(2), ops));
    assert !Agree(2, ttl, ops);
  }

  /**
   The exact condition: the cache is indistinguishable from the plain table, at every
   capacity and ttl and for every run drawn from handlers that captured `nows`, if and
   only if no instant falls below one that had not fallen itself.
   */
  lemma UnobservableIffValley(nows: seq<int>)
    ensures (forall maxPending: nat, ttl: nat, ops :: Drawn(ops, nows) ==> Agree(maxPending, ttl, ops))
            <==> Valley(nows)
  {
    if Valley(nows) {
      forall maxPending: nat, ttl: nat, ops | Drawn(ops, nows) ensures Agree(maxPending, ttl, ops) {
        var picks: seq<nat> :| Increasing(picks, |nows|) && Instants(ops) == Picked(nows, picks);
        PickedValley(nows, picks);
        ValleyAgrees(maxPending, ttl, Empty(if maxPending == 0 then 1 else maxPending), map[],
                     Above(Picked(nows, picks)), ops);
      }
    } else {
      var i, j, k :| 0 <= i < j < k < |nows| && nows[i] <= nows[j] && nows[k] < nows[j];
      StaleInstantIsObservable(nows, i, j, k);
    }
  }
}
