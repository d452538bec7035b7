/**
 What a settled payment buys on the gating server: the next handler to enter for that
 invocation is forwarded on it, and no other handler ever is.
 */
module Settlement {
  import opened Lru
  import Store = AuthorizationStore
  import StoreProperties
  import Gating

  // ---------- The protocol's traffic on the store ----------

  function OpsOf(s: Gating.State, step: Gating.Step): (r: seq<Store.Op>)
    requires Gating.Enabled(s, step)
  {
    match step
    case Enter(i, now, ttl) => [Store.ClaimOrSetPending(s.tasks[i].key, now, ttl)]
    case Retime(i, now) => [Store.UpdatePendingTtl(s.tasks[i].key, now, s.tasks[i].phase.ttl)]
    case Abort(i) => [Store.ClearPending(s.tasks[i].key)]
    case Settle(v, now) =>
      if s.verifiers[v].progress.ok then [Store.Grant(s.verifiers[v].key, now, s.verifiers[v].ttl)]
      else [Store.ClearPending(s.verifiers[v].key)]
    case _ => []
  }

  ghost function StoreOps(s: Gating.State, steps: seq<Gating.Step>): (r: seq<Store.Op>)
    requires Gating.Executable(s, steps)
    decreases |steps|
  {
    if steps == [] then [] else OpsOf(s, steps[0]) + StoreOps(Gating.Next(s, steps[0]), steps[1..])
  }

  lemma StepIsItsOps(s: Gating.State, step: Gating.Step)
    requires Gating.Enabled(s, step)
    ensures Gating.Next(s, step).store == Store.Run(s.store, OpsOf(s, step))
  {
    var ops := OpsOf(s, step);
    if ops != [] {
      assert ops[1..] == [];
      assert Store.Run(s.store, ops) == Store.Step(s.store, ops[0]).state;
    }
  }

  /** Every run of the protocol acts on the store as the sequence of its operations. */
  lemma {:induction false} RunIsItsOps(s: Gating.State, steps: seq<Gating.Step>)
    requires Gating.Executable(s, steps)
    ensures Gating.Exec(s, steps).store == Store.Run(s.store, StoreOps(s, steps))
    decreases |steps|
  {
    if steps == [] {
    } else {
      var s1 := Gating.Next(s, steps[0]);
      StepIsItsOps(s, steps[0]);
      RunIsItsOps(s1, steps[1..]);
      Store.RunAppend(s.store, OpsOf(s, steps[0]), StoreOps(s1, steps[1..]));
    }
  }

  lemma ReachableStoreIsValid(maxEntries: nat, s: Gating.State)
    requires Gating.Reachable(maxEntries, s)
    ensures s.store.Valid()
  {
    var init := Gating.Init(maxEntries);
    var steps :| Gating.Executable(init, steps) && Gating.Exec(init, steps) == s;
    RunIsItsOps(init, steps);
    Store.RunValid(init.store, StoreOps(init, steps));
  }

  // ---------- One payment, one forward ----------

  /** Nobody claims or grants `k`, and fewer than `cap` other identities are granted. */
  ghost predicate Quiet(ops: seq<Store.Op>, k: Key, cap: nat) {
    && (forall op :: op in ops && op.key == k ==> !op.Grant? && !StoreProperties.IsClaim(op))
    && |StoreProperties.GrantedKeys(ops)| < cap
  }

  /** Verifier `v` settles its payment in `s`; then `mid` leads to `s1` without touching that grant. */
  ghost predicate SettledThenQuiet(s: Gating.State, v: nat, at: nat, mid: seq<Gating.Step>, s1: Gating.State) {
    && Gating.Enabled(s, Gating.Settle(v, at)) && s.verifiers[v].progress.ok
    && var s0 := Gating.Next(s, Gating.Settle(v, at));
    && Gating.Executable(s0, mid) && s1 == Gating.Exec(s0, mid)
    && Quiet(StoreOps(s0, mid), s.verifiers[v].key, s.store.authorizations.cap)
  }

  lemma SettleGrants(s: Gating.State, v: nat, at: nat)
    requires Gating.Enabled(s, Gating.Settle(v, at)) && s.verifiers[v].progress.ok
    ensures var s0, k := Gating.Next(s, Gating.Settle(v, at)), s.verifiers[v].key;
            && s0.store == Store.DoGrant(s.store, k, at, s.verifiers[v].ttl)
            && k in s0.grantedBy && s0.grantedBy[k] == v
  {
  }

  lemma SettledGrantIsHeld(s: Gating.State, v: nat, at: nat, mid: seq<Gating.Step>, s1: Gating.State)
    requires s.store.Valid() && SettledThenQuiet(s, v, at, mid, s1)
    ensures var held := s1.store.authorizations.table;
            s.verifiers[v].key in held && held[s.verifiers[v].key] == at + s.verifiers[v].ttl
  {
    var s0 := Gating.Next(s, Gating.Settle(v, at));
    SettleGrants(s, v, at);
    RunIsItsOps(s0, mid);
    StoreProperties.GrantSurvives(s.store, s.verifiers[v].key, at, s.verifiers[v].ttl, StoreOps(s0, mid));
  }

  lemma OwnerStaysStep(s: Gating.State, step: Gating.Step, k: Key)
    requires Gating.Enabled(s, step) && k in s.grantedBy
    requires forall op :: op in OpsOf(s, step) && op.key == k ==> !op.Grant?
    ensures k in Gating.Next(s, step).grantedBy && Gating.Next(s, step).grantedBy[k] == s.grantedBy[k]
  {
    if step.Settle? && s.verifiers[step.verifier].progress.ok {
      assert OpsOf(s, step)[0] in OpsOf(s, step);
    }
  }

  /** As long as nobody grants `k`, the payment behind its grant stays the same one. */
  lemma {:induction false} OwnerStays(s: Gating.State, steps: seq<Gating.Step>, k: Key)
    requires Gating.Executable(s, steps) && k in s.grantedBy
    requires forall op :: op in StoreOps(s, steps) && op.key == k ==> !op.Grant?
    ensures k in Gating.Exec(s, steps).grantedBy && Gating.Exec(s, steps).grantedBy[k] == s.grantedBy[k]
    decreases |steps|
  {
    if steps == [] {
    } else {
      var s1 := Gating.Next(s, steps[0]);
      forall op | op in OpsOf(s, steps[0]) && op.key == k ensures !op.Grant? {
        assert op in StoreOps(s, steps);
      }
      forall op | op in StoreOps(s1, steps[1..]) && op.key == k ensures !op.Grant? {
        assert op in StoreOps(s, steps);
      }
      OwnerStaysStep(s, steps[0], k);
      OwnerStays(s1, steps[1..], k);
    }
  }

  lemma EnterForwards(s: Gating.State, j: nat, now: nat, ttl: nat)
    requires Gating.Enabled(s, Gating.Enter(j, now, ttl))
    requires s.store.LiveGrant(s.tasks[j].key, now) && s.tasks[j].key in s.grantedBy
    ensures var s' := Gating.Next(s, Gating.Enter(j, now, ttl));
            && |s'.tasks| == |s.tasks| && s'.tasks[j].phase == Gating.ClaimForward(s.grantedBy[s.tasks[j].key])
  {
  }

  lemma SettledPaymentForwards(
    s: Gating.State, v: nat, at: nat, mid: seq<Gating.Step>, s1: Gating.State, j: nat, now: nat, ttl: nat)
    requires s.store.Valid() && SettledThenQuiet(s, v, at, mid, s1)
    requires Gating.Enabled(s1, Gating.Enter(j, now, ttl))
    requires s1.tasks[j].key == s.verifiers[v].key && now <= at + s.verifiers[v].ttl
    ensures Gating.Next(s1, Gating.Enter(j, now, ttl)).tasks[j].phase == Gating.ClaimForward(v)
  {
    SettledGrantIsHeld(s, v, at, mid, s1);
    SettleGrants(s, v, at);
    OwnerStays(Gating.Next(s, Gating.Settle(v, at)), mid, s.verifiers[v].key);
    EnterForwards(s1, j, now, ttl);
  }

  /** Handler `j`, and no other one, is forwarded on the payment of verifier `v`. */
  ghost predicate OnlyForward(s: Gating.State, j: nat, v: nat) {
    && j < |s.tasks| && s.tasks[j].phase == Gating.ClaimForward(v)
    && forall m :: 0 <= m < |s.tasks| && m != j ==> s.tasks[m].phase != Gating.ClaimForward(v)
  }

  /** In every reachable state a forward is the only one on its payment, and it stays so through any further run. */
  lemma ForwardIsOnlyOne(s: Gating.State, j: nat, v: nat, tail: seq<Gating.Step>)
    requires Gating.Inv(s) && j < |s.tasks| && s.tasks[j].phase == Gating.ClaimForward(v)
    requires Gating.Executable(s, tail)
    ensures OnlyForward(Gating.Exec(s, tail), j, v)
  {
    Gating.InvRun(s, tail);
    Gating.ClaimIsFinal(s, tail, j);
  }

  /** A server run: verifier `v` settles in `s`, things stay quiet up to `s1`, and handler `j` is about to enter. */
  datatype Trip = Trip(
    maxEntries: nat, s: Gating.State, v: nat, at: nat, mid: seq<Gating.Step>, s1: Gating.State, j: nat, now: nat, ttl: nat)

  ghost predicate AboutToEnter(t: Trip) {
    && Gating.Reachable(t.maxEntries, t.s) && SettledThenQuiet(t.s, t.v, t.at, t.mid, t.s1)
    && Gating.Enabled(t.s1, Gating.Enter(t.j, t.now, t.ttl)) && t.now <= t.at + t.s.verifiers[t.v].ttl
  }

  /** The invocation the payment was for, and the one the handler is about to enter for. */
  ghost function PaymentKey(t: Trip): (k: Key)
    requires AboutToEnter(t)
  {
    t.s.verifiers[t.v].key
  }

  ghost function EntryKey(t: Trip): (k: Key)
    requires AboutToEnter(t)
  {
    t.s1.tasks[t.j].key
  }

  ghost function Entered(t: Trip): (r: Gating.State)
    requires AboutToEnter(t)
  {
    Gating.Next(t.s1, Gating.Enter(t.j, t.now, t.ttl))
  }

  lemma EnteredIsSound(t: Trip)
    requires AboutToEnter(t)
    ensures Gating.Inv(Entered(t)) && t.s.store.Valid()
  {
    Gating.ReachableIsSound(t.maxEntries, t.s);
    ReachableStoreIsValid(t.maxEntries, t.s);
    Gating.InvStep(t.s, Gating.Settle(t.v, t.at));
    Gating.InvRun(Gating.Next(t.s, Gating.Settle(t.v, t.at)), t.mid);
    Gating.InvStep(t.s1, Gating.Enter(t.j, t.now, t.ttl));
  }

  /**
   After verifier `v` settles its payment, if nobody enters or settles for that invocation
   and fewer than capacity others are granted, the next handler `j` to enter for it inside
   the window is forwarded on that very payment.  From then on, through any run
   whatsoever, overlapping cycles and further payments for the same invocation included,
   no other handler is.
   */
  lemma SettledPaymentForwardsOnce(t: Trip, tail: seq<Gating.Step>)
    requires AboutToEnter(t) && EntryKey(t) == PaymentKey(t)
    requires Gating.Executable(Entered(t), tail)
    ensures OnlyForward(Entered(t), t.j, t.v) && OnlyForward(Gating.Exec(Entered(t), tail), t.j, t.v)
  {
    EnteredIsSound(t);
    SettledPaymentForwards(t.s, t.v, t.at, t.mid, t.s1, t.j, t.now, t.ttl);
    ForwardIsOnlyOne(Entered(t), t.j, t.v, tail);
    ForwardIsOnlyOne(Entered(t), t.j, t.v, []);
  }
}
