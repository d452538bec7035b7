/**
 The explicit-gating middleware as a protocol: any number of request handlers and
 detached verifiers interleave on one authorization store.  A handler that opens an
 offer cycle and publishes an offer spawns a verifier, which outlives it.

 Each step is one critical section of the store, the return of one awaited call, or a
 spawn.  Every store step may use any captured instant, so stale clocks are included.
 The two `...By` maps and `releases` are history: they record which verifier stands
 behind a held grant, which handler opened a pending entry and which cycles gave theirs
 up, and never influence a step.
 */
module Gating {
  import opened Lru
  import Store = AuthorizationStore

  datatype Phase =
    | Entering                       // identity computed, store not consulted yet
    | Initiating                     // owns the cycle; price and invoice being resolved
    | Retiming(ttl: nat)             // invoice exists; pending window about to be retimed
    | Publishing(ttl: nat)           // the -32042 offer is being published
    | Spawning(ttl: nat)             // offer on the wire; verifier not spawned yet
    | Dropped                        // verifier spawned, request dropped
    | Aborting(waived: bool)         // cycle over before an offer; pending not cleared yet
    | Abandoned                      // cycle over without an offer, request dropped
    | WaivedForward                  // cycle over, request forwarded on a waiver
    | ClaimForward(payment: nat)     // forwarded on the grant of verifier `payment`
    | Parked                         // answered with -32043
    | Crashed                        // handler panicked while it owned the cycle

  /** A request handler. */
  datatype Task = Task(key: Key, phase: Phase, published: bool)

  datatype Progress = Running | Returned(ok: bool) | Settled(ok: bool)

  /** A detached verifier of the offer that handler `cycle` published. */
  datatype Verifier = Verifier(cycle: nat, key: Key, ttl: nat, progress: Progress)

  predicate Handling(p: Phase) {
    p.Initiating? || p.Retiming? || p.Publishing? || p.Spawning? || p.Aborting?
  }

  predicate Verified(v: Verifier) {
    v.progress == Returned(true) || v.progress == Settled(true)
  }

  datatype State = State(
    store: Store.State, tasks: seq<Task>, verifiers: seq<Verifier>,
    grantedBy: map<Key, nat>, pendingBy: map<Key, nat>, releases: multiset<nat>)

  function Init(maxEntries: nat): (s: State) {
    State(Store.EmptyState(maxEntries), [], [], map[], map[], multiset{})
  }

  datatype Initiation = Failed | Rejected | Waived | Required(ttl: nat) | Panicked

  datatype Publish = Delivered | Refused | PublishPanicked

  datatype Step =
    | Arrive(key: Key)
    | Enter(task: nat, now: nat, paymentTtl: nat)
    | Initiate(task: nat, initiation: Initiation)
    | Retime(task: nat, now: nat)
    | Offer(task: nat, publish: Publish)
    | Abort(task: nat)
    | Spawn(task: nat)
    | VerifyReturns(verifier: nat, ok: bool)
    | Settle(verifier: nat, now: nat)

  predicate Enabled(s: State, step: Step) {
    match step
    case Arrive(_) => true
    case Enter(i, _, _) => i < |s.tasks| && s.tasks[i].phase.Entering?
    case Initiate(i, _) => i < |s.tasks| && s.tasks[i].phase.Initiating?
    case Retime(i, _) => i < |s.tasks| && s.tasks[i].phase.Retiming?
    case Offer(i, _) => i < |s.tasks| && s.tasks[i].phase.Publishing?
    case Abort(i) => i < |s.tasks| && s.tasks[i].phase.Aborting?
    case Spawn(i) => i < |s.tasks| && s.tasks[i].phase.Spawning?
    case VerifyReturns(v, _) => v < |s.verifiers| && s.verifiers[v].progress.Running?
    case Settle(v, _) => v < |s.verifiers| && s.verifiers[v].progress.Returned?
  }

  function At(s: State, i: nat, p: Phase): (r: State)
    requires i < |s.tasks|
  {
    s.(tasks := s.tasks[i := s.tasks[i].(phase := p)])
  }

  function VerifierAt(s: State, v: nat, p: Progress): (r: State)
    requires v < |s.verifiers|
  {
    s.(verifiers := s.verifiers[v := s.verifiers[v].(progress := p)])
  }

  /** One critical section: claim a grant, park behind a live pending entry, or open a cycle. */
  function DoEnter(s: State, i: nat, now: nat, ttl: nat): (r: State)
    requires i < |s.tasks|
  {
    var k := s.tasks[i].key;
    var (store, entry) := Store.DoClaimOrSetPending(s.store, k, now, ttl);
    match entry
    case Claimed => At(s.(store := store), i, ClaimForward(if k in s.grantedBy then s.grantedBy[k] else 0))
    case AlreadyPending(_) => At(s.(store := store), i, Parked)
    case PendingSet => At(s.(store := store, pendingBy := s.pendingBy[k := i]), i, Initiating)
  }

  /** A verifier's last section: grant, or clear the pending entry. */
  function DoSettle(s: State, v: nat, now: nat): (r: State)
    requires v < |s.verifiers| && s.verifiers[v].progress.Returned?
  {
    var w := s.verifiers[v];
    var s1 := VerifierAt(s, v, Settled(w.progress.ok)).(releases := s.releases + multiset{w.cycle});
    if w.progress.ok then
      s1.(store := Store.DoGrant(s.store, w.key, now, w.ttl), grantedBy := s.grantedBy[w.key := v])
    else s1.(store := Store.DoClearPending(s.store, w.key))
  }

  function Next(s: State, step: Step): (r: State)
    requires Enabled(s, step)
  {
    match step
    case Arrive(k) => s.(tasks := s.tasks + [Task(k, Entering, false)])
    case Enter(i, now, ttl) => DoEnter(s, i, now, ttl)
    case Initiate(i, initiation) =>
      At(s, i, match initiation
               case Failed => Aborting(false)
               case Rejected => Aborting(false)
               case Waived => Aborting(true)
               case Required(ttl) => Retiming(ttl)
               case Panicked => Crashed)
    case Retime(i, now) =>
      var t := s.tasks[i];
      At(s.(store := Store.DoUpdatePendingTtl(s.store, t.key, now, t.phase.ttl)), i, Publishing(t.phase.ttl))
    case Offer(i, publish) =>
      (match publish
       case Delivered =>
         s.(tasks := s.tasks[i := s.tasks[i].(phase := Spawning(s.tasks[i].phase.ttl), published := true)])
       case Refused => At(s, i, Aborting(false))
       case PublishPanicked => At(s, i, Crashed))
    case Abort(i) =>
      At(s.(store := Store.DoClearPending(s.store, s.tasks[i].key), releases := s.releases + multiset{i}), i,
         if s.tasks[i].phase.waived then WaivedForward else Abandoned)
    case Spawn(i) =>
      At(s.(verifiers := s.verifiers + [Verifier(i, s.tasks[i].key, s.tasks[i].phase.ttl, Running)]), i, Dropped)
    case VerifyReturns(v, ok) => VerifierAt(s, v, Returned(ok))
    case Settle(v, now) => DoSettle(s, v, now)
  }

  ghost predicate Executable(s: State, steps: seq<Step>)
    decreases |steps|
  {
    steps == [] || (Enabled(s, steps[0]) && Executable(Next(s, steps[0]), steps[1..]))
  }

  ghost function Exec(s: State, steps: seq<Step>): (r: State)
    requires Executable(s, steps)
    decreases |steps|
  {
    if steps == [] then s else Exec(Next(s, steps[0]), steps[1..])
  }

  ghost predicate Reachable(maxEntries: nat, s: State) {
    exists steps :: Executable(Init(maxEntries), steps) && Exec(Init(maxEntries), steps) == s
  }

  lemma {:induction false} Extend(s: State, steps: seq<Step>, last: Step)
    requires Executable(s, steps) && Enabled(Exec(s, steps), last)
    ensures Executable(s, steps + [last]) && Exec(s, steps + [last]) == Next(Exec(s, steps), last)
    decreases |steps|
  {
    var all := steps + [last];
    if steps == [] {
      assert all == [last] && all[1..] == [];
      assert Executable(Next(s, last), []);
    } else {
      assert all[0] == steps[0] && all[1..] == steps[1..] + [last];
      Extend(Next(s, steps[0]), steps[1..], last);
    }
  }

  lemma ReachInit(maxEntries: nat)
    ensures Reachable(maxEntries, Init(maxEntries))
  {
    assert Executable(Init(maxEntries), []) && Exec(Init(maxEntries), []) == Init(maxEntries);
  }

  lemma Reach(maxEntries: nat, s: State, step: Step) returns (s': State)
    requires Reachable(maxEntries, s) && Enabled(s, step)
    ensures s' == Next(s, step) && Reachable(maxEntries, s')
  {
    var steps :| Executable(Init(maxEntries), steps) && Exec(Init(maxEntries), steps) == s;
    Extend(Init(maxEntries), steps, step);
    s' := Next(s, step);
  }

  // ---------- Handlers and their verifiers ----------

  ghost predicate TaskOk(t: Task) {
    t.published <==> t.phase.Spawning? || t.phase.Dropped?
  }

  /** Verifier `w` checks the offer of a handler that published one and is done. */
  ghost predicate VerifierOk(s: State, w: Verifier) {
    w.cycle < |s.tasks| && s.tasks[w.cycle].key == w.key && s.tasks[w.cycle].phase.Dropped?
  }

  ghost predicate HasVerifier(s: State, i: nat) {
    exists v :: 0 <= v < |s.verifiers| && s.verifiers[v].cycle == i
  }

  ghost predicate Paired(s: State) {
    && (forall i :: 0 <= i < |s.tasks| ==> TaskOk(s.tasks[i]))
    && (forall v :: 0 <= v < |s.verifiers| ==> VerifierOk(s, s.verifiers[v]))
    && (forall v, w :: 0 <= v < w < |s.verifiers| ==> s.verifiers[v].cycle != s.verifiers[w].cycle)
    && (forall i :: 0 <= i < |s.tasks| && s.tasks[i].phase.Dropped? ==> HasVerifier(s, i))
  }

  predicate OfHandler(step: Step) {
    !step.Arrive? && !step.VerifyReturns? && !step.Settle?
  }

  lemma HandlerMoves(s: State, step: Step)
    requires Enabled(s, step) && OfHandler(step) && TaskOk(s.tasks[step.task])
    ensures var s' := Next(s, step);
            && |s'.tasks| == |s.tasks| && TaskOk(s'.tasks[step.task])
            && s'.tasks[step.task].key == s.tasks[step.task].key
            && !s.tasks[step.task].phase.Dropped?
            && (s'.tasks[step.task].phase.Dropped? <==> step.Spawn?)
            && (!step.Spawn? ==> s'.verifiers == s.verifiers)
            && (forall j :: 0 <= j < |s.tasks| && j != step.task ==> s'.tasks[j] == s.tasks[j])
  {
  }

  lemma PairedHandler(s: State, step: Step)
    requires Paired(s) && Enabled(s, step) && OfHandler(step) && !step.Spawn?
    ensures Paired(Next(s, step))
  {
    var s' := Next(s, step);
    HandlerMoves(s, step);
    forall j | 0 <= j < |s'.tasks| ensures TaskOk(s'.tasks[j]) && (s'.tasks[j].phase.Dropped? ==> HasVerifier(s', j)) {
      if j != step.task {
        assert s'.tasks[j] == s.tasks[j];
        assert s.tasks[j].phase.Dropped? ==> HasVerifier(s, j);
      }
    }
    forall v | 0 <= v < |s'.verifiers| ensures VerifierOk(s', s'.verifiers[v]) {
      assert VerifierOk(s, s.verifiers[v]);
    }
  }

  lemma PairedSpawn(s: State, i: nat)
    requires Paired(s) && Enabled(s, Spawn(i))
    ensures Paired(Next(s, Spawn(i)))
  {
    var s' := Next(s, Spawn(i));
    var n := |s.verifiers|;
    HandlerMoves(s, Spawn(i));
    forall v | 0 <= v < n ensures s'.verifiers[v] == s.verifiers[v] && s.verifiers[v].cycle != i {
      assert VerifierOk(s, s.verifiers[v]);
    }
    assert s'.verifiers[n].cycle == i;
    forall j | 0 <= j < |s'.tasks| && s'.tasks[j].phase.Dropped? ensures HasVerifier(s', j) {
      if j != i {
        assert HasVerifier(s, j);
        var v :| 0 <= v < n && s.verifiers[v].cycle == j;
        assert s'.verifiers[v].cycle == j;
      }
    }
  }

  lemma PairedVerifier(s: State, s': State, v: nat)
    requires Paired(s) && s'.tasks == s.tasks && v < |s.verifiers|
    requires exists p :: s'.verifiers == s.verifiers[v := s.verifiers[v].(progress := p)]
    ensures Paired(s')
  {
    forall w | 0 <= w < |s'.verifiers| ensures VerifierOk(s', s'.verifiers[w]) {
      assert VerifierOk(s, s.verifiers[w]);
    }
    forall j | 0 <= j < |s'.tasks| && s'.tasks[j].phase.Dropped? ensures HasVerifier(s', j) {
      assert HasVerifier(s, j);
      var w :| 0 <= w < |s.verifiers| && s.verifiers[w].cycle == j;
      assert s'.verifiers[w].cycle == j;
    }
  }

  lemma PairedArrive(s: State, k: Key)
    requires Paired(s)
    ensures Paired(Next(s, Arrive(k)))
  {
    var s' := Next(s, Arrive(k));
    forall v | 0 <= v < |s'.verifiers| ensures VerifierOk(s', s'.verifiers[v]) {
      assert VerifierOk(s, s.verifiers[v]);
    }
    forall j | 0 <= j < |s'.tasks| && s'.tasks[j].phase.Dropped? ensures HasVerifier(s', j) {
      assert s'.tasks[j] == s.tasks[j] && HasVerifier(s, j);
    }
  }

  lemma PairedStep(s: State, step: Step)
    requires Paired(s) && Enabled(s, step)
    ensures Paired(Next(s, step))
  {
    match step
    case Arrive(k) => PairedArrive(s, k);
    case Spawn(i) => PairedSpawn(s, i);
    case VerifyReturns(v, ok) => PairedVerifier(s, Next(s, step), v);
    case Settle(v, _) => PairedVerifier(s, Next(s, step), v);
    case _ => PairedHandler(s, step);
  }

  // ---------- Claims are backed by verified payments ----------

  /** Verifier `v` verified a payment for `k` and has granted it. */
  ghost predicate Paid(s: State, v: nat, k: Key) {
    v < |s.verifiers| && s.verifiers[v].key == k && s.verifiers[v].progress == Settled(true)
  }

  ghost predicate Unspent(s: State, v: nat) {
    forall j :: 0 <= j < |s.tasks| && s.tasks[j].phase.ClaimForward? ==> s.tasks[j].phase.payment != v
  }

  ghost predicate GrantsBacked(s: State) {
    && (forall k :: k in s.store.authorizations.table ==>
          k in s.grantedBy && Paid(s, s.grantedBy[k], k) && Unspent(s, s.grantedBy[k]))
    && (forall j :: 0 <= j < |s.tasks| && s.tasks[j].phase.ClaimForward? ==>
          Paid(s, s.tasks[j].phase.payment, s.tasks[j].key))
    && (forall i, j :: 0 <= i < j < |s.tasks| && s.tasks[i].phase.ClaimForward? && s.tasks[j].phase.ClaimForward? ==>
          s.tasks[i].phase.payment != s.tasks[j].phase.payment)
  }

  /** Handlers neither make nor lose a claim, payments stay, and no grant is added. */
  ghost predicate SameClaims(s: State, s': State) {
    && |s'.tasks| >= |s.tasks|
    && (forall j :: 0 <= j < |s.tasks| ==> s'.tasks[j].key == s.tasks[j].key)
    && (forall j :: 0 <= j < |s'.tasks| && s'.tasks[j].phase.ClaimForward? ==>
          j < |s.tasks| && s'.tasks[j].phase == s.tasks[j].phase)
    && |s'.verifiers| >= |s.verifiers|
    && (forall v :: 0 <= v < |s.verifiers| && s.verifiers[v].progress.Settled? ==> s'.verifiers[v] == s.verifiers[v])
  }

  lemma BackedFrame(s: State, s': State)
    requires GrantsBacked(s) && SameClaims(s, s') && s'.grantedBy == s.grantedBy
    requires forall k :: k in s'.store.authorizations.table ==> k in s.store.authorizations.table
    ensures GrantsBacked(s')
  {
    forall k | k in s'.store.authorizations.table
      ensures k in s'.grantedBy && Paid(s', s'.grantedBy[k], k) && Unspent(s', s'.grantedBy[k])
    {
      assert Paid(s, s.grantedBy[k], k) && Unspent(s, s.grantedBy[k]);
    }
    forall j | 0 <= j < |s'.tasks| && s'.tasks[j].phase.ClaimForward?
      ensures Paid(s', s'.tasks[j].phase.payment, s'.tasks[j].key)
    {
      assert Paid(s, s.tasks[j].phase.payment, s.tasks[j].key);
    }
  }

  lemma BackedClaim(s: State, s': State, i: nat)
    requires GrantsBacked(s) && i < |s.tasks| && s.tasks[i].phase.Entering?
    requires var k := s.tasks[i].key;
             && k in s.store.authorizations.table && k in s.grantedBy
             && s'.tasks == s.tasks[i := s.tasks[i].(phase := ClaimForward(s.grantedBy[k]))]
             && s'.grantedBy == s.grantedBy && s'.verifiers == s.verifiers
             && s'.store.authorizations.table == s.store.authorizations.table - {k}
    ensures GrantsBacked(s')
  {
    var k := s.tasks[i].key;
    var payment := s.grantedBy[k];
    assert Paid(s, payment, k) && Unspent(s, payment);
    forall q | q in s'.store.authorizations.table
      ensures q in s'.grantedBy && Paid(s', s'.grantedBy[q], q) && Unspent(s', s'.grantedBy[q])
    {
      assert Paid(s, s.grantedBy[q], q) && Unspent(s, s.grantedBy[q]);
      assert s.grantedBy[q] != payment;
    }
    forall j | 0 <= j < |s'.tasks| && s'.tasks[j].phase.ClaimForward?
      ensures Paid(s', s'.tasks[j].phase.payment, s'.tasks[j].key)
    {
      if j != i {
        assert Paid(s, s.tasks[j].phase.payment, s.tasks[j].key);
      }
    }
  }

  lemma BackedEnter(s: State, i: nat, now: nat, ttl: nat)
    requires GrantsBacked(s) && i < |s.tasks| && s.tasks[i].phase.Entering?
    ensures GrantsBacked(DoEnter(s, i, now, ttl))
  {
    var k, s' := s.tasks[i].key, DoEnter(s, i, now, ttl);
    assert s'.store.authorizations.table == s.store.authorizations.table - {k};
    if s'.tasks[i].phase.ClaimForward? {
      BackedClaim(s, s', i);
    } else {
      BackedFrame(s, s');
    }
  }

  lemma PutKeys(c: Cache<int>, k: Key, v: int)
    ensures k in c.Put(k, v).table
    ensures forall q :: q in c.Put(k, v).table ==> q == k || q in c.table
  {
  }

  lemma BackedGrant(s: State, v: nat, now: nat)
    requires GrantsBacked(s) && Enabled(s, Settle(v, now)) && s.verifiers[v].progress.ok
    ensures GrantsBacked(Next(s, Settle(v, now)))
  {
    var k, s' := s.verifiers[v].key, Next(s, Settle(v, now));
    PutKeys(s.store.authorizations, k, now + s.verifiers[v].ttl);
    forall j | 0 <= j < |s.tasks| && s.tasks[j].phase.ClaimForward?
      ensures s.tasks[j].phase.payment != v
      ensures Paid(s', s.tasks[j].phase.payment, s.tasks[j].key)
    {
      assert Paid(s, s.tasks[j].phase.payment, s.tasks[j].key);
    }
    forall q | q in s'.store.authorizations.table
      ensures q in s'.grantedBy && Paid(s', s'.grantedBy[q], q) && Unspent(s', s'.grantedBy[q])
    {
      if q != k {
        assert Paid(s, s.grantedBy[q], q) && Unspent(s, s.grantedBy[q]);
      }
    }
  }

  ghost predicate SameGrants(s: State, s': State) {
    s'.grantedBy == s.grantedBy && s'.store.authorizations == s.store.authorizations
  }

  lemma HandlerMakesNoClaim(s: State, step: Step)
    requires Enabled(s, step) && OfHandler(step) && !step.Enter?
    ensures SameClaims(s, Next(s, step)) && SameGrants(s, Next(s, step))
  {
  }

  lemma VerifierMakesNoClaim(s: State, step: Step)
    requires Enabled(s, step) && !OfHandler(step) && !(step.Settle? && s.verifiers[step.verifier].progress.ok)
    ensures SameClaims(s, Next(s, step)) && SameGrants(s, Next(s, step))
  {
  }

  lemma BackedStep(s: State, step: Step)
    requires GrantsBacked(s) && Enabled(s, step)
    ensures GrantsBacked(Next(s, step))
  {
    if step.Enter? {
      BackedEnter(s, step.task, step.now, step.paymentTtl);
    } else if step.Settle? && s.verifiers[step.verifier].progress.ok {
      BackedGrant(s, step.verifier, step.now);
    } else {
      if OfHandler(step) {
        HandlerMakesNoClaim(s, step);
      } else {
        VerifierMakesNoClaim(s, step);
      }
      BackedFrame(s, Next(s, step));
    }
  }

  // ---------- Pending entries belong to running cycles ----------

  ghost predicate VerifierRuns(s: State, i: nat) {
    exists v :: 0 <= v < |s.verifiers| && s.verifiers[v].cycle == i && !s.verifiers[v].progress.Settled?
  }

  /** The cycle of handler `i` is in flight: in its own hands, or in its verifier's. */
  ghost predicate InFlight(s: State, i: nat) {
    i < |s.tasks| && (Handling(s.tasks[i].phase) || VerifierRuns(s, i))
  }

  ghost predicate Owned(s: State, k: Key) {
    && k in s.pendingBy && s.pendingBy[k] < |s.tasks| && s.tasks[s.pendingBy[k]].key == k
    && (InFlight(s, s.pendingBy[k]) || s.tasks[s.pendingBy[k]].phase.Crashed?)
  }

  ghost predicate PendingsOwned(s: State) {
    forall k :: k in s.store.pending.table ==> Owned(s, k)
  }

  predicate Opens(s: State, step: Step, k: Key)
    requires Enabled(s, step)
  {
    step.Enter? && s.tasks[step.task].key == k && Next(s, step).tasks[step.task].phase.Initiating?
  }

  /** Whether a step ends a cycle of `k`, which clears its pending entry. */
  predicate Ends(s: State, step: Step, k: Key)
    requires Enabled(s, step)
  {
    (step.Abort? && s.tasks[step.task].key == k) || (step.Settle? && s.verifiers[step.verifier].key == k)
  }

  lemma PendingWritten(c: Cache<int>, q: Key, v: int, k: Key)
    requires k in c.Promote(q).Put(q, v).table && q != k
    ensures k in c.table
  {
  }

  lemma PendingKept(s: State, step: Step, k: Key)
    requires Enabled(s, step) && k in Next(s, step).store.pending.table && !Opens(s, step, k)
    ensures k in s.store.pending.table && !Ends(s, step, k)
  {
    if step.Enter? && s.tasks[step.task].key != k && k !in s.store.pending.table {
      PendingWritten(s.store.pending, s.tasks[step.task].key, step.now + step.paymentTtl, k);
    } else if step.Retime? && s.tasks[step.task].key != k && k !in s.store.pending.table {
      PendingWritten(s.store.pending, s.tasks[step.task].key, step.now + s.tasks[step.task].phase.ttl, k);
    }
  }

  lemma RunsStill(s: State, step: Step, i: nat)
    requires Paired(s) && Enabled(s, step) && VerifierRuns(s, i) && i < |s.tasks| && !Ends(s, step, s.tasks[i].key)
    ensures VerifierRuns(Next(s, step), i)
  {
    var v :| 0 <= v < |s.verifiers| && s.verifiers[v].cycle == i && !s.verifiers[v].progress.Settled?;
    assert VerifierOk(s, s.verifiers[v]);
    var w := Next(s, step).verifiers[v];
    assert w.cycle == i && !w.progress.Settled?;
  }

  lemma HandlingStill(s: State, step: Step, i: nat)
    requires Enabled(s, step) && i < |s.tasks| && Handling(s.tasks[i].phase) && !Ends(s, step, s.tasks[i].key)
    ensures InFlight(Next(s, step), i) || Next(s, step).tasks[i].phase.Crashed?
  {
    var s' := Next(s, step);
    if step == Spawn(i) {
      var n := |s.verifiers|;
      assert s'.verifiers[n].cycle == i && !s'.verifiers[n].progress.Settled?;
    }
  }

  lemma KeysStay(s: State, step: Step, i: nat)
    requires Enabled(s, step) && i < |s.tasks|
    ensures i < |Next(s, step).tasks| && Next(s, step).tasks[i].key == s.tasks[i].key
    ensures s.tasks[i].phase.Crashed? ==> Next(s, step).tasks[i].phase.Crashed?
  {
  }

  lemma OwnerKept(s: State, step: Step, k: Key)
    requires Paired(s) && Enabled(s, step) && Owned(s, k) && !Opens(s, step, k) && !Ends(s, step, k)
    ensures Owned(Next(s, step), k)
  {
    var o := s.pendingBy[k];
    KeysStay(s, step, o);
    if VerifierRuns(s, o) {
      RunsStill(s, step, o);
    } else if Handling(s.tasks[o].phase) {
      HandlingStill(s, step, o);
    }
    assert k in Next(s, step).pendingBy && Next(s, step).pendingBy[k] == o;
  }

  lemma OwnedStep(s: State, step: Step)
    requires Paired(s) && PendingsOwned(s) && Enabled(s, step)
    ensures PendingsOwned(Next(s, step))
  {
    forall k | k in Next(s, step).store.pending.table ensures Owned(Next(s, step), k) {
      if !Opens(s, step, k) {
        PendingKept(s, step, k);
        OwnerKept(s, step, k);
      }
    }
  }

  // ---------- Every cycle releases once ----------

  ghost predicate VerifierSettled(s: State, i: nat) {
    exists v :: 0 <= v < |s.verifiers| && s.verifiers[v].cycle == i && s.verifiers[v].progress.Settled?
  }

  /** The cycle of handler `i` is over. */
  ghost predicate Over(s: State, i: nat) {
    i < |s.tasks| && (s.tasks[i].phase.Abandoned? || s.tasks[i].phase.WaivedForward? || VerifierSettled(s, i))
  }

  ghost predicate ReleasedOnce(s: State) {
    forall i: nat :: s.releases[i] == if Over(s, i) then 1 else 0
  }

  lemma SettledFrame(s: State, step: Step, i: nat)
    requires Paired(s) && Enabled(s, step) && !step.Settle?
    ensures VerifierSettled(Next(s, step), i) <==> VerifierSettled(s, i)
  {
    var s' := Next(s, step);
    if VerifierSettled(s, i) {
      var v :| 0 <= v < |s.verifiers| && s.verifiers[v].cycle == i && s.verifiers[v].progress.Settled?;
      assert s'.verifiers[v] == s.verifiers[v];
    }
    if VerifierSettled(s', i) {
      var v :| 0 <= v < |s'.verifiers| && s'.verifiers[v].cycle == i && s'.verifiers[v].progress.Settled?;
      assert v < |s.verifiers| && s.verifiers[v] == s'.verifiers[v];
    }
  }

  lemma OverStep(s: State, step: Step, i: nat)
    requires Paired(s) && Enabled(s, step) && !step.Settle?
    ensures Over(Next(s, step), i) <==> Over(s, i) || step == Abort(i)
    ensures step == Abort(i) ==> !Over(s, i)
  {
    SettledFrame(s, step, i);
    if VerifierSettled(s, i) {
      var v :| 0 <= v < |s.verifiers| && s.verifiers[v].cycle == i;
      assert VerifierOk(s, s.verifiers[v]);
    }
  }

  lemma ReleasedHandler(s: State, step: Step)
    requires Paired(s) && ReleasedOnce(s) && Enabled(s, step) && !step.Settle?
    ensures ReleasedOnce(Next(s, step))
  {
    var s' := Next(s, step);
    assert s'.releases == if step.Abort? then s.releases + multiset{step.task} else s.releases;
    forall i: nat ensures s'.releases[i] == if Over(s', i) then 1 else 0 {
      OverStep(s, step, i);
    }
  }

  lemma SettleFrame(s: State, v: nat, now: nat, i: nat)
    requires Paired(s) && Enabled(s, Settle(v, now))
    ensures VerifierSettled(Next(s, Settle(v, now)), i) <==> VerifierSettled(s, i) || i == s.verifiers[v].cycle
  {
    var s' := Next(s, Settle(v, now));
    assert s'.verifiers[v].cycle == s.verifiers[v].cycle && s'.verifiers[v].progress.Settled?;
    if VerifierSettled(s, i) {
      var w :| 0 <= w < |s.verifiers| && s.verifiers[w].cycle == i && s.verifiers[w].progress.Settled?;
      assert s'.verifiers[w] == s.verifiers[w];
    }
    if VerifierSettled(s', i) && i != s.verifiers[v].cycle {
      var w :| 0 <= w < |s'.verifiers| && s'.verifiers[w].cycle == i && s'.verifiers[w].progress.Settled?;
      assert s'.verifiers[w] == s.verifiers[w];
    }
  }

  lemma ReleasedSettle(s: State, v: nat, now: nat)
    requires Paired(s) && ReleasedOnce(s) && Enabled(s, Settle(v, now))
    ensures ReleasedOnce(Next(s, Settle(v, now)))
  {
    var s' := Next(s, Settle(v, now));
    assert VerifierOk(s, s.verifiers[v]);
    assert !Over(s, s.verifiers[v].cycle);
    forall i: nat ensures s'.releases[i] == if Over(s', i) then 1 else 0 {
      SettleFrame(s, v, now, i);
    }
  }

  // ---------- What a run's own events say ----------

  /** Handler `i` has done exactly what the answers it got told it to: `h` are the steps taken so far. */
  ghost predicate TaskHistory(t: Task, i: nat, h: seq<Step>) {
    && (t.published <==> Offer(i, Delivered) in h)
    && (t.phase.Dropped? <==> Spawn(i) in h)
    && (t.phase == Aborting(true) || t.phase.WaivedForward? <==> Initiate(i, Waived) in h)
    && (t.phase == Aborting(false) || t.phase.Abandoned? <==>
        Initiate(i, Failed) in h || Initiate(i, Rejected) in h || Offer(i, Refused) in h)
    && (t.phase.Crashed? <==> Initiate(i, Panicked) in h || Offer(i, PublishPanicked) in h)
    && (t.phase.WaivedForward? || t.phase.Abandoned? <==> Abort(i) in h)
    && (t.phase.Retiming? || t.phase.Publishing? || t.phase.Spawning? ==> Initiate(i, Required(t.phase.ttl)) in h)
  }

  /** Verifier `v` came to what its verification returned, and settled only then. */
  ghost predicate VerifierHistory(w: Verifier, v: nat, h: seq<Step>) {
    && (Verified(w) <==> VerifyReturns(v, true) in h)
    && (w.progress == Returned(false) || w.progress == Settled(false) <==> VerifyReturns(v, false) in h)
    && (w.progress.Settled? <==> exists now :: Settle(v, now) in h)
    && Initiate(w.cycle, Required(w.ttl)) in h && Offer(w.cycle, Delivered) in h
  }

  ghost predicate Past(s: State, step: Step) {
    && (OfHandler(step) ==> step.task < |s.tasks|)
    && (step.VerifyReturns? || step.Settle? ==> step.verifier < |s.verifiers|)
  }

  ghost predicate History(s: State, h: seq<Step>) {
    && (forall step :: step in h ==> Past(s, step))
    && (forall i :: 0 <= i < |s.tasks| ==> TaskHistory(s.tasks[i], i, h))
    && (forall v :: 0 <= v < |s.verifiers| ==> VerifierHistory(s.verifiers[v], v, h))
  }

  lemma OtherTaskHistory(t: Task, i: nat, h: seq<Step>, step: Step)
    requires TaskHistory(t, i, h) && !(OfHandler(step) && step.task == i)
    ensures TaskHistory(t, i, h + [step])
  {
  }

  lemma OtherVerifierHistory(w: Verifier, v: nat, h: seq<Step>, step: Step)
    requires VerifierHistory(w, v, h) && !((step.VerifyReturns? || step.Settle?) && step.verifier == v)
    ensures VerifierHistory(w, v, h + [step])
  {
    if exists now :: Settle(v, now) in h + [step] {
      var now :| Settle(v, now) in h + [step];
      assert Settle(v, now) in h;
    }
    if exists now :: Settle(v, now) in h {
      var now :| Settle(v, now) in h;
      assert Settle(v, now) in h + [step];
    }
  }

  lemma AnswerHistory(s: State, step: Step, h: seq<Step>)
    requires Enabled(s, step) && (step.Initiate? || step.Offer?)
    requires TaskOk(s.tasks[step.task]) && TaskHistory(s.tasks[step.task], step.task, h)
    ensures TaskHistory(Next(s, step).tasks[step.task], step.task, h + [step])
  {
    assert step in h + [step];
  }

  lemma OtherStepHistory(s: State, step: Step, h: seq<Step>)
    requires Enabled(s, step) && OfHandler(step) && !step.Initiate? && !step.Offer?
    requires TaskOk(s.tasks[step.task]) && TaskHistory(s.tasks[step.task], step.task, h)
    ensures TaskHistory(Next(s, step).tasks[step.task], step.task, h + [step])
  {
    assert step in h + [step];
  }

  lemma TaskHistoryStep(s: State, step: Step, h: seq<Step>)
    requires Enabled(s, step) && OfHandler(step)
    requires TaskOk(s.tasks[step.task]) && TaskHistory(s.tasks[step.task], step.task, h)
    ensures TaskHistory(Next(s, step).tasks[step.task], step.task, h + [step])
  {
    if step.Initiate? || step.Offer? {
      AnswerHistory(s, step, h);
    } else {
      OtherStepHistory(s, step, h);
    }
  }

  lemma ReturnHistory(s: State, v: nat, ok: bool, h: seq<Step>)
    requires Enabled(s, VerifyReturns(v, ok)) && VerifierHistory(s.verifiers[v], v, h)
    ensures VerifierHistory(Next(s, VerifyReturns(v, ok)).verifiers[v], v, h + [VerifyReturns(v, ok)])
  {
    var h' := h + [VerifyReturns(v, ok)];
    assert forall now :: Settle(v, now) in h' ==> Settle(v, now) in h;
  }

  lemma SettleHistory(s: State, v: nat, now: nat, h: seq<Step>)
    requires Enabled(s, Settle(v, now)) && VerifierHistory(s.verifiers[v], v, h)
    ensures VerifierHistory(Next(s, Settle(v, now)).verifiers[v], v, h + [Settle(v, now)])
  {
    assert Settle(v, now) in h + [Settle(v, now)];
  }

  lemma SpawnHistory(s: State, i: nat, h: seq<Step>)
    requires Enabled(s, Spawn(i)) && TaskOk(s.tasks[i]) && TaskHistory(s.tasks[i], i, h)
    requires forall step :: step in h ==> Past(s, step)
    ensures var n := |s.verifiers|;
            && |Next(s, Spawn(i)).verifiers| == n + 1
            && VerifierHistory(Next(s, Spawn(i)).verifiers[n], n, h + [Spawn(i)])
  {
    var n := |s.verifiers|;
    forall step | step in h + [Spawn(i)] ensures !((step.VerifyReturns? || step.Settle?) && step.verifier == n) {
      if step in h {
        assert Past(s, step);
      }
    }
  }

  lemma NewTaskHistory(s: State, k: Key, h: seq<Step>)
    requires forall step :: step in h ==> Past(s, step)
    ensures TaskHistory(Task(k, Entering, false), |s.tasks|, h + [Arrive(k)])
  {
    forall step | step in h + [Arrive(k)] ensures !(OfHandler(step) && step.task == |s.tasks|) {
      if step in h {
        assert Past(s, step);
      }
    }
  }

  lemma PastStays(s: State, step: Step, h: seq<Step>)
    requires Enabled(s, step) && forall q :: q in h ==> Past(s, q)
    ensures |s.tasks| <= |Next(s, step).tasks| && |s.verifiers| <= |Next(s, step).verifiers|
    ensures forall q :: q in h + [step] ==> Past(Next(s, step), q)
  {
  }

  lemma TaskUnmoved(s: State, step: Step, i: nat)
    requires Enabled(s, step) && i < |s.tasks| && !(OfHandler(step) && step.task == i)
    ensures i < |Next(s, step).tasks| && Next(s, step).tasks[i] == s.tasks[i]
  {
  }

  lemma VerifierUnmoved(s: State, step: Step, v: nat)
    requires Enabled(s, step) && v < |s.verifiers| && !((step.VerifyReturns? || step.Settle?) && step.verifier == v)
    ensures v < |Next(s, step).verifiers| && Next(s, step).verifiers[v] == s.verifiers[v]
  {
  }

  /** Only an arrival adds a handler, and only a spawn adds a verifier. */
  lemma OneMore(s: State, step: Step)
    requires Enabled(s, step)
    ensures |Next(s, step).tasks| == |s.tasks| + if step.Arrive? then 1 else 0
    ensures step.Arrive? ==> Next(s, step).tasks[|s.tasks|] == Task(step.key, Entering, false)
    ensures |Next(s, step).verifiers| == |s.verifiers| + if step.Spawn? then 1 else 0
  {
  }

  lemma TasksHistoryStep(s: State, step: Step, h: seq<Step>, i: nat)
    requires Paired(s) && History(s, h) && Enabled(s, step) && i < |Next(s, step).tasks|
    ensures TaskHistory(Next(s, step).tasks[i], i, h + [step])
  {
    if OfHandler(step) && step.task == i {
      TaskHistoryStep(s, step, h);
    } else if i < |s.tasks| {
      TaskUnmoved(s, step, i);
      OtherTaskHistory(s.tasks[i], i, h, step);
    } else {
      OneMore(s, step);
      NewTaskHistory(s, step.key, h);
    }
  }

  lemma VerifiersHistoryStep(s: State, step: Step, h: seq<Step>, v: nat)
    requires Paired(s) && History(s, h) && Enabled(s, step) && v < |Next(s, step).verifiers|
    ensures VerifierHistory(Next(s, step).verifiers[v], v, h + [step])
  {
    if step.VerifyReturns? && step.verifier == v {
      ReturnHistory(s, v, step.ok, h);
    } else if step.Settle? && step.verifier == v {
      SettleHistory(s, v, step.now, h);
    } else if v < |s.verifiers| {
      VerifierUnmoved(s, step, v);
      OtherVerifierHistory(s.verifiers[v], v, h, step);
    } else {
      OneMore(s, step);
      SpawnHistory(s, step.task, h);
    }
  }

  lemma HistoryStep(s: State, step: Step, h: seq<Step>)
    requires Paired(s) && History(s, h) && Enabled(s, step)
    ensures History(Next(s, step), h + [step])
  {
    PastStays(s, step, h);
    forall i | 0 <= i < |Next(s, step).tasks| ensures TaskHistory(Next(s, step).tasks[i], i, h + [step]) {
      TasksHistoryStep(s, step, h, i);
    }
    forall v | 0 <= v < |Next(s, step).verifiers| ensures VerifierHistory(Next(s, step).verifiers[v], v, h + [step]) {
      VerifiersHistoryStep(s, step, h, v);
    }
  }

  lemma {:induction false} HistoryRun(s: State, h: seq<Step>, steps: seq<Step>, all: seq<Step>)
    requires Paired(s) && History(s, h) && Executable(s, steps) && all == h + steps
    ensures History(Exec(s, steps), all)
    decreases |steps|
  {
    if steps == [] {
      assert all == h;
    } else {
      assert all == (h + [steps[0]]) + steps[1..];
      PairedStep(s, steps[0]);
      HistoryStep(s, steps[0], h);
      HistoryRun(Next(s, steps[0]), h + [steps[0]], steps[1..], all);
    }
  }

  /** Arrivals leave no trace of their own in a history. */
  lemma HistoryWithoutArrival(s: State, h: seq<Step>, k: Key)
    requires History(s, h + [Arrive(k)])
    ensures History(s, h)
  {
    assert forall step :: step in h ==> step in h + [Arrive(k)];
    assert forall step :: step in h + [Arrive(k)] && !step.Arrive? ==> step in h;
    forall i | 0 <= i < |s.tasks| ensures TaskHistory(s.tasks[i], i, h) {
      assert TaskHistory(s.tasks[i], i, h + [Arrive(k)]);
    }
    forall v | 0 <= v < |s.verifiers| ensures VerifierHistory(s.verifiers[v], v, h) {
      assert VerifierHistory(s.verifiers[v], v, h + [Arrive(k)]);
    }
  }

  /**
   In every run a handler and a verifier are where the answers they got put them: an
   offer is out exactly when its publish succeeded, a request is forwarded on a waiver
   exactly when its price was waived, and a payment is verified exactly when its
   verification returned Ok.
   */
  lemma PhasesFollowAnswers(maxEntries: nat, steps: seq<Step>)
    requires Executable(Init(maxEntries), steps)
    ensures History(Exec(Init(maxEntries), steps), steps)
  {
    InvInit(maxEntries);
    HistoryRun(Init(maxEntries), [], steps, steps);
  }

  /** What an entry answers, by what is live at its instant. */
  lemma EntryAnswers(s: State, i: nat, now: nat, ttl: nat)
    requires Enabled(s, Enter(i, now, ttl))
    ensures var k, p := s.tasks[i].key, Next(s, Enter(i, now, ttl)).tasks[i].phase;
            && (p.ClaimForward? <==> s.store.LiveGrant(k, now))
            && (p.Parked? <==> !s.store.LiveGrant(k, now) && s.store.LivePending(k, now))
            && (p.Initiating? <==> !s.store.LiveGrant(k, now) && !s.store.LivePending(k, now))
  {
  }

  // ---------- Every run ----------

  ghost predicate Inv(s: State) {
    Paired(s) && GrantsBacked(s) && PendingsOwned(s) && ReleasedOnce(s)
  }

  lemma InvStep(s: State, step: Step)
    requires Inv(s) && Enabled(s, step)
    ensures Inv(Next(s, step))
  {
    PairedStep(s, step);
    BackedStep(s, step);
    OwnedStep(s, step);
    if step.Settle? {
      ReleasedSettle(s, step.verifier, step.now);
    } else {
      ReleasedHandler(s, step);
    }
  }

  lemma InvInit(maxEntries: nat)
    ensures Inv(Init(maxEntries))
  {
  }

  lemma {:induction false} InvRun(s: State, steps: seq<Step>)
    requires Inv(s) && Executable(s, steps)
    ensures Inv(Exec(s, steps))
    decreases |steps|
  {
    if steps == [] {
    } else {
      InvStep(s, steps[0]);
      InvRun(Next(s, steps[0]), steps[1..]);
    }
  }

  lemma ReachableIsSound(maxEntries: nat, s: State)
    requires Reachable(maxEntries, s)
    ensures Inv(s)
  {
    var steps :| Executable(Init(maxEntries), steps) && Exec(Init(maxEntries), steps) == s;
    InvInit(maxEntries);
    InvRun(Init(maxEntries), steps);
  }

  function ClaimForwards(s: State, k: Key): (r: set<nat>) {
    set i: nat | i < |s.tasks| && s.tasks[i].key == k && s.tasks[i].phase.ClaimForward?
  }

  function VerifiedPayments(s: State, k: Key): (r: set<nat>) {
    set v: nat | v < |s.verifiers| && s.verifiers[v].key == k && Verified(s.verifiers[v])
  }

  function PublishedOffers(s: State, k: Key): (r: set<nat>) {
    set i: nat | i < |s.tasks| && s.tasks[i].key == k && s.tasks[i].published
  }

  /** An injection cannot shrink a set. */
  lemma {:induction false} InjectionCount(a: set<nat>, b: set<nat>, f: map<nat, nat>)
    requires forall x :: x in a ==> x in f && f[x] in b
    requires forall x, y :: x in a && y in a && x != y ==> f[x] != f[y]
    ensures |a| <= |b|
    decreases |a|
  {
    if a == {} {
    } else {
      var x :| x in a;
      InjectionCount(a - {x}, b - {f[x]}, f);
    }
  }

  lemma ClaimsWithinPayments(s: State, k: Key)
    requires Inv(s)
    ensures |ClaimForwards(s, k)| <= |VerifiedPayments(s, k)|
    ensures forall i :: i in ClaimForwards(s, k) ==> s.tasks[i].phase.payment in VerifiedPayments(s, k)
  {
    forall i | i in ClaimForwards(s, k) ensures s.tasks[i].phase.payment in VerifiedPayments(s, k) {
      assert Paid(s, s.tasks[i].phase.payment, k);
    }
    InjectionCount(ClaimForwards(s, k), VerifiedPayments(s, k),
                   map i | i in ClaimForwards(s, k) :: s.tasks[i].phase.payment);
  }

  lemma PaymentsWithinOffers(s: State, k: Key)
    requires Inv(s)
    ensures |VerifiedPayments(s, k)| <= |PublishedOffers(s, k)|
    ensures forall v :: v in VerifiedPayments(s, k) ==> s.verifiers[v].cycle in PublishedOffers(s, k)
  {
    forall v | v in VerifiedPayments(s, k) ensures s.verifiers[v].cycle in PublishedOffers(s, k) {
      assert VerifierOk(s, s.verifiers[v]);
    }
    InjectionCount(VerifiedPayments(s, k), PublishedOffers(s, k),
                   map v | v in VerifiedPayments(s, k) :: s.verifiers[v].cycle);
  }

  /**
   In every interleaving and for every identity, the invocations forwarded on a claim
   are no more than the payments whose verification returned Ok, which are no more than
   the offers whose publish returned Ok; and each forward spends a different one of those
   payments, of its own identity. A forward without a claim was waived.
   */
  lemma ForwardsArePaidFor(maxEntries: nat, steps: seq<Step>, k: Key)
    requires Executable(Init(maxEntries), steps)
    ensures var s := Exec(Init(maxEntries), steps);
            && |ClaimForwards(s, k)| <= |VerifiedPayments(s, k)| <= |PublishedOffers(s, k)|
            && (forall i :: i in ClaimForwards(s, k) ==> s.tasks[i].phase.payment in VerifiedPayments(s, k))
            && (forall i, j :: i in ClaimForwards(s, k) && j in ClaimForwards(s, k) && i != j ==>
                  s.tasks[i].phase.payment != s.tasks[j].phase.payment)
            && (forall v :: v in VerifiedPayments(s, k) ==> VerifyReturns(v, true) in steps)
            && (forall i :: i in PublishedOffers(s, k) ==> Offer(i, Delivered) in steps)
            && (forall i :: 0 <= i < |s.tasks| && s.tasks[i].phase.WaivedForward? ==> Initiate(i, Waived) in steps)
  {
    InvInit(maxEntries);
    InvRun(Init(maxEntries), steps);
    PhasesFollowAnswers(maxEntries, steps);
    var s := Exec(Init(maxEntries), steps);
    ClaimsWithinPayments(s, k);
    PaymentsWithinOffers(s, k);
    forall v | v in VerifiedPayments(s, k) ensures VerifyReturns(v, true) in steps {
      assert VerifierHistory(s.verifiers[v], v, steps);
    }
    forall i | i in PublishedOffers(s, k) ensures Offer(i, Delivered) in steps {
      assert TaskHistory(s.tasks[i], i, steps);
    }
    forall i | 0 <= i < |s.tasks| && s.tasks[i].phase.WaivedForward? ensures Initiate(i, Waived) in steps {
      assert TaskHistory(s.tasks[i], i, steps);
    }
  }

  /**
   Verifiers and published offers match one to one: no two verifiers share a cycle, and
   the cycles that have one are exactly those whose offer was published, apart from the
   handlers that are just about to spawn theirs.
   */
  lemma OneVerifierPerOffer(maxEntries: nat, steps: seq<Step>)
    requires Executable(Init(maxEntries), steps)
    ensures var s := Exec(Init(maxEntries), steps);
            && (forall v, w :: 0 <= v < w < |s.verifiers| ==> s.verifiers[v].cycle != s.verifiers[w].cycle)
            && (forall v :: 0 <= v < |s.verifiers| ==>
                  s.verifiers[v].cycle in PublishedOffers(s, s.verifiers[v].key))
            && (forall i :: 0 <= i < |s.tasks| ==>
                  (HasVerifier(s, i) <==> s.tasks[i].published && !s.tasks[i].phase.Spawning?))
  {
    InvInit(maxEntries);
    InvRun(Init(maxEntries), steps);
    var s := Exec(Init(maxEntries), steps);
    forall v | 0 <= v < |s.verifiers|
      ensures s.verifiers[v].cycle in PublishedOffers(s, s.verifiers[v].key)
      ensures !s.tasks[s.verifiers[v].cycle].phase.Spawning?
    {
      assert VerifierOk(s, s.verifiers[v]);
    }
    forall i | 0 <= i < |s.tasks| ensures HasVerifier(s, i) <==> s.tasks[i].published && !s.tasks[i].phase.Spawning? {
      assert TaskOk(s.tasks[i]);
    }
  }

  /** A handler whose offer went out forwards nothing, then or later. */
  lemma GatedRequestIsDropped(maxEntries: nat, steps: seq<Step>, i: nat)
    requires Executable(Init(maxEntries), steps)
    requires i < |Exec(Init(maxEntries), steps).tasks| && Exec(Init(maxEntries), steps).tasks[i].published
    ensures var p := Exec(Init(maxEntries), steps).tasks[i].phase; !p.ClaimForward? && !p.WaivedForward?
  {
    InvInit(maxEntries);
    InvRun(Init(maxEntries), steps);
    assert TaskOk(Exec(Init(maxEntries), steps).tasks[i]);
  }

  /** A cycle in flight has not crashed. */
  lemma CrashedIsNotInFlight(s: State, i: nat)
    requires Inv(s) && InFlight(s, i)
    ensures !s.tasks[i].phase.Crashed?
  {
    if VerifierRuns(s, i) {
      var v :| 0 <= v < |s.verifiers| && s.verifiers[v].cycle == i;
      assert VerifierOk(s, s.verifiers[v]);
    }
  }

  /**
   No orphan pending: in every reachable state a pending entry belongs to the cycle that
   last opened it, and unless that cycle's handler panicked it is still in flight.  A
   cycle that is over has released exactly once, any other not at all.
   */
  lemma NoOrphanPending(maxEntries: nat, steps: seq<Step>)
    requires Executable(Init(maxEntries), steps)
    ensures var s := Exec(Init(maxEntries), steps);
            && (forall k :: k in s.store.pending.table ==>
                  && k in s.pendingBy && s.pendingBy[k] < |s.tasks| && s.tasks[s.pendingBy[k]].key == k
                  && (InFlight(s, s.pendingBy[k]) <==> !s.tasks[s.pendingBy[k]].phase.Crashed?))
            && (forall i: nat :: s.releases[i] == if Over(s, i) then 1 else 0)
  {
    InvInit(maxEntries);
    InvRun(Init(maxEntries), steps);
    var s := Exec(Init(maxEntries), steps);
    forall k | k in s.store.pending.table
      ensures Owned(s, k) && (InFlight(s, s.pendingBy[k]) <==> !s.tasks[s.pendingBy[k]].phase.Crashed?)
    {
      assert Owned(s, k);
      if InFlight(s, s.pendingBy[k]) {
        CrashedIsNotInFlight(s, s.pendingBy[k]);
      }
    }
  }

  /** Every -32043 parks its client behind a cycle for the same invocation that is still running or has crashed. */
  lemma ParkedBehindACycle(maxEntries: nat, steps: seq<Step>, i: nat, now: nat, ttl: nat)
    requires Executable(Init(maxEntries), steps)
    requires Enabled(Exec(Init(maxEntries), steps), Enter(i, now, ttl))
    requires Next(Exec(Init(maxEntries), steps), Enter(i, now, ttl)).tasks[i].phase.Parked?
    ensures var s := Exec(Init(maxEntries), steps);
            exists c: nat :: c < |s.tasks| && s.tasks[c].key == s.tasks[i].key
                        && (InFlight(s, c) || s.tasks[c].phase.Crashed?)
  {
    InvInit(maxEntries);
    InvRun(Init(maxEntries), steps);
    var s := Exec(Init(maxEntries), steps);
    var k := s.tasks[i].key;
    assert k in s.store.pending.table;
    assert Owned(s, k);
  }

  /** A panic in initiation does leave an orphan: its entry stays, with no cycle running behind it. */
  lemma PanickedInitiationLeavesAnOrphan(maxEntries: nat, k: Key, now: nat, ttl: nat)
    ensures var steps := [Arrive(k), Enter(0, now, ttl), Initiate(0, Panicked)];
            && Executable(Init(maxEntries), steps)
            && var s := Exec(Init(maxEntries), steps);
               k in s.store.pending.table && forall i: nat :: !InFlight(s, i)
  {
    var s0 := Init(maxEntries);
    var s1 := Next(s0, Arrive(k));
    var s2 := Next(s1, Enter(0, now, ttl));
    PutKeys(s1.store.pending.Promote(k), k, now + ttl);
    assert s2.tasks[0].phase == Initiating && k in s2.store.pending.table;
    var s3 := Next(s2, Initiate(0, Panicked));
    var steps := [Arrive(k), Enter(0, now, ttl), Initiate(0, Panicked)];
    assert steps[1..] == [Enter(0, now, ttl), Initiate(0, Panicked)];
    assert steps[1..][1..] == [Initiate(0, Panicked)];
    assert Executable(s3, []) && Exec(s3, []) == s3;
    assert Executable(s2, steps[1..][1..]) && Exec(s2, steps[1..][1..]) == s3;
    assert Executable(s1, steps[1..]) && Exec(s1, steps[1..]) == s3;
  }

  // ---------- Forwards stay put ----------

  /** A claim is final: no step of any run takes it back or moves it to another payment. */
  lemma {:induction false} ClaimIsFinal(s: State, steps: seq<Step>, j: nat)
    requires Executable(s, steps) && j < |s.tasks| && s.tasks[j].phase.ClaimForward?
    ensures j < |Exec(s, steps).tasks| && Exec(s, steps).tasks[j] == s.tasks[j]
    decreases |steps|
  {
    if steps == [] {
    } else {
      assert Next(s, steps[0]).tasks[j] == s.tasks[j];
      ClaimIsFinal(Next(s, steps[0]), steps[1..], j);
    }
  }
}
