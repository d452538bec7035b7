/**
 Overlapping offer cycles.  The pending entry is what keeps a second cycle for the same
 invocation from opening, and it can expire or be evicted while the first cycle is still
 in flight.  This module says exactly when cycles of one identity overlap.
 */
module OfferCycles {
  import opened Lru
  import Store = AuthorizationStore
  import Gating

  /** Handler `c` runs a cycle for `k` that is in flight. */
  ghost predicate CycleOf(s: Gating.State, c: nat, k: Key) {
    Gating.InFlight(s, c) && s.tasks[c].key == k
  }

  ghost predicate OneCycle(s: Gating.State, k: Key) {
    forall c: nat, d: nat :: CycleOf(s, c, k) && CycleOf(s, d, k) ==> c == d
  }

  /** The guard of the opening branch: an entry that overlaps a cycle of its identity finds a live grant or pending entry. */
  ghost predicate GuardHolds(s: Gating.State, step: Gating.Step, k: Key)
    requires Gating.Enabled(s, step)
  {
    step.Enter? && s.tasks[step.task].key == k && (exists c: nat :: CycleOf(s, c, k)) ==>
      s.store.LiveGrant(k, step.now) || s.store.LivePending(k, step.now)
  }

  // ---------- What a step does to the cycles in flight ----------

  lemma VerifierRunsBefore(s: Gating.State, step: Gating.Step, c: nat)
    requires Gating.Enabled(s, step) && Gating.VerifierRuns(Gating.Next(s, step), c)
    ensures Gating.VerifierRuns(s, c) || step == Gating.Spawn(c)
  {
    var s' := Gating.Next(s, step);
    var v :| 0 <= v < |s'.verifiers| && s'.verifiers[v].cycle == c && !s'.verifiers[v].progress.Settled?;
    if v < |s.verifiers| {
      assert s.verifiers[v].cycle == c && !s.verifiers[v].progress.Settled?;
    }
  }

  lemma HandlingBefore(s: Gating.State, step: Gating.Step, c: nat)
    requires Gating.Enabled(s, step) && c < |Gating.Next(s, step).tasks|
    requires Gating.Handling(Gating.Next(s, step).tasks[c].phase)
    ensures c < |s.tasks| && s.tasks[c].key == Gating.Next(s, step).tasks[c].key
    ensures Gating.Handling(s.tasks[c].phase) || (step.Enter? && step.task == c)
  {
  }

  /** Only an entry puts a cycle in flight. */
  lemma CycleBefore(s: Gating.State, step: Gating.Step, c: nat, k: Key)
    requires Gating.Inv(s) && Gating.Enabled(s, step) && CycleOf(Gating.Next(s, step), c, k)
    ensures CycleOf(s, c, k) || (step.Enter? && step.task == c && s.tasks[c].key == k)
  {
    var s' := Gating.Next(s, step);
    if Gating.VerifierRuns(s', c) {
      VerifierRunsBefore(s, step, c);
      if Gating.VerifierRuns(s, c) {
        var v :| 0 <= v < |s.verifiers| && s.verifiers[v].cycle == c;
        assert Gating.VerifierOk(s, s.verifiers[v]);
        Gating.KeysStay(s, step, c);
      }
    } else {
      HandlingBefore(s, step, c);
    }
  }

  lemma EntryIsNotInFlight(s: Gating.State, i: nat)
    requires Gating.Inv(s) && i < |s.tasks| && s.tasks[i].phase.Entering?
    ensures !Gating.InFlight(s, i)
  {
    forall v | 0 <= v < |s.verifiers| ensures s.verifiers[v].cycle != i {
      assert Gating.VerifierOk(s, s.verifiers[v]);
    }
  }

  /** An entry opens a cycle exactly when it finds neither a live grant nor a live pending entry. */
  lemma EntryOpens(s: Gating.State, i: nat, now: nat, ttl: nat)
    requires Gating.Inv(s) && Gating.Enabled(s, Gating.Enter(i, now, ttl))
    ensures var k := s.tasks[i].key;
            Gating.InFlight(Gating.Next(s, Gating.Enter(i, now, ttl)), i)
            <==> !s.store.LiveGrant(k, now) && !s.store.LivePending(k, now)
  {
    EntryIsNotInFlight(s, i);
    var s' := Gating.Next(s, Gating.Enter(i, now, ttl));
    if Gating.VerifierRuns(s', i) {
      VerifierRunsBefore(s, Gating.Enter(i, now, ttl), i);
      assert false;
    }
  }

  lemma GuardKeepsOneCycle(s: Gating.State, step: Gating.Step, k: Key)
    requires Gating.Inv(s) && OneCycle(s, k) && Gating.Enabled(s, step) && GuardHolds(s, step, k)
    ensures OneCycle(Gating.Next(s, step), k)
  {
    var s' := Gating.Next(s, step);
    if step.Enter? && s.tasks[step.task].key == k {
      EntryOpens(s, step.task, step.now, step.paymentTtl);
    }
    forall c: nat, d: nat | CycleOf(s', c, k) && CycleOf(s', d, k) ensures c == d {
      CycleBefore(s, step, c, k);
      CycleBefore(s, step, d, k);
    }
  }

  lemma BrokenGuardOverlaps(s: Gating.State, step: Gating.Step, k: Key)
    requires Gating.Inv(s) && Gating.Enabled(s, step) && !GuardHolds(s, step, k)
    ensures !OneCycle(Gating.Next(s, step), k)
  {
    var s' := Gating.Next(s, step);
    var c: nat :| CycleOf(s, c, k);
    EntryIsNotInFlight(s, step.task);
    EntryOpens(s, step.task, step.now, step.paymentTtl);
    assert s'.tasks[c] == s.tasks[c] && s'.verifiers == s.verifiers;
    if Gating.VerifierRuns(s, c) {
      assert Gating.VerifierRuns(s', c);
    }
    assert CycleOf(s', c, k) && CycleOf(s', step.task, k);
  }

  // ---------- Whole runs ----------

  ghost predicate OneCycleThroughout(s: Gating.State, steps: seq<Gating.Step>, k: Key)
    requires Gating.Executable(s, steps)
    decreases |steps|
  {
    OneCycle(s, k) && (steps == [] || OneCycleThroughout(Gating.Next(s, steps[0]), steps[1..], k))
  }

  ghost predicate Guarded(s: Gating.State, steps: seq<Gating.Step>, k: Key)
    requires Gating.Executable(s, steps)
    decreases |steps|
  {
    steps == [] || (GuardHolds(s, steps[0], k) && Guarded(Gating.Next(s, steps[0]), steps[1..], k))
  }

  lemma {:induction false} OverlapFrom(s: Gating.State, steps: seq<Gating.Step>, k: Key)
    requires Gating.Inv(s) && OneCycle(s, k) && Gating.Executable(s, steps)
    ensures OneCycleThroughout(s, steps, k) <==> Guarded(s, steps, k)
    decreases |steps|
  {
    if steps == [] {
    } else if GuardHolds(s, steps[0], k) {
      GuardKeepsOneCycle(s, steps[0], k);
      Gating.InvStep(s, steps[0]);
      OverlapFrom(Gating.Next(s, steps[0]), steps[1..], k);
    } else {
      BrokenGuardOverlaps(s, steps[0], k);
    }
  }

  /**
   The exact condition: throughout a run at most one cycle per identity is in flight, so
   no second offer for it is made while one is open, if and only if every entry for that
   identity that overlaps a cycle finds a live grant or a live pending entry.
   */
  lemma OneCycleIffGuarded(maxEntries: nat, steps: seq<Gating.Step>, k: Key)
    requires Gating.Executable(Gating.Init(maxEntries), steps)
    ensures OneCycleThroughout(Gating.Init(maxEntries), steps, k) <==> Guarded(Gating.Init(maxEntries), steps, k)
  {
    Gating.InvInit(maxEntries);
    OverlapFrom(Gating.Init(maxEntries), steps, k);
  }

  // ---------- Overlap happens ----------

  /** Handler `c` has an offer for `k` out that has not settled. */
  ghost predicate OpenOffer(s: Gating.State, c: nat, k: Key) {
    CycleOf(s, c, k) && s.tasks[c].published
  }

  lemma OverlappingEntries(maxEntries: nat, k: Key, first: nat, ttl: nat, second: nat, secondTtl: nat)
    returns (s: Gating.State)
    requires first + ttl < second
    ensures Gating.Reachable(maxEntries, s)
    ensures s.tasks == [Gating.Task(k, Gating.Initiating, false), Gating.Task(k, Gating.Initiating, false)]
  {
    s := Gating.Init(maxEntries);
    Gating.ReachInit(maxEntries);
    s := Gating.Reach(maxEntries, s, Gating.Arrive(k));
    s := Gating.Reach(maxEntries, s, Gating.Enter(0, first, ttl));
    assert s.tasks == [Gating.Task(k, Gating.Initiating, false)];
    assert s.store.authorizations.table == map[] && s.store.pending.table[k] == first + ttl;
    s := Gating.Reach(maxEntries, s, Gating.Arrive(k));
    s := Gating.Reach(maxEntries, s, Gating.Enter(1, second, secondTtl));
  }

  /** From initiation to an offer on the wire, for one handler, while the others stand still. */
  lemma Publishes(maxEntries: nat, s: Gating.State, i: nat, ttl: nat, now: nat) returns (s': Gating.State)
    requires Gating.Reachable(maxEntries, s) && i < |s.tasks| && s.tasks[i].phase.Initiating?
    ensures Gating.Reachable(maxEntries, s')
    ensures s'.tasks == s.tasks[i := Gating.Task(s.tasks[i].key, Gating.Spawning(ttl), true)]
  {
    s' := Gating.Reach(maxEntries, s, Gating.Initiate(i, Gating.Required(ttl)));
    s' := Gating.Reach(maxEntries, s', Gating.Retime(i, now));
    s' := Gating.Reach(maxEntries, s', Gating.Offer(i, Gating.Delivered));
  }

  /** Overlap happens: whenever a second entry comes after the pending window of the first, two offers can be open. */
  lemma ExpiryOpensTwoOffers(maxEntries: nat, k: Key, first: nat, ttl: nat, second: nat, secondTtl: nat)
    returns (s: Gating.State)
    requires first + ttl < second
    ensures Gating.Reachable(maxEntries, s) && OpenOffer(s, 0, k) && OpenOffer(s, 1, k)
  {
    s := OverlappingEntries(maxEntries, k, first, ttl, second, secondTtl);
    s := Publishes(maxEntries, s, 0, ttl, second);
    s := Publishes(maxEntries, s, 1, secondTtl, second);
  }
}
