/**
 One request event delivered more than once.  The transparent middleware remembers event
 ids, the gating middleware remembers invocations, and neither looks at the other's
 memory: an event redelivered after its session changed mode can be invoiced again while
 its first invoice is still open.  This module says exactly when that cannot happen.
 */
module Redelivery {
  import opened Lru
  import Lifecycle
  import Dedup = TransparentDedup
  import Gating
  import Chain
  import Server

  /** A lifecycle published an invoice for this delivery, and its dedup window has not closed. */
  predicate OpenInvoice(s: Chain.State, d: Chain.Dispatched) {
    && Chain.ChargedTransparently(s, d)
    && s.dedup.clock < s.dedup.flights[d.flight.value].captured + s.dedup.ttl
  }

  /** While an invoice for an event is open, no other delivery of that event has one, or an offer. */
  ghost predicate InvoicedOnce(s: Chain.State) {
    forall i, j :: 0 <= i < |s.sent| && 0 <= j < |s.sent| && i != j ==>
      s.sent[i].message.eventId == s.sent[j].message.eventId && OpenInvoice(s, s.sent[i]) ==>
        !OpenInvoice(s, s.sent[j]) && !Chain.ChargedByGating(s, s.sent[j])
  }

  // ---------- What never happens ----------

  lemma InvoicedFlightIsTracked(s: Chain.State, i: nat)
    requires Chain.Inv(s) && i < |s.sent| && OpenInvoice(s, s.sent[i])
    ensures var id := s.sent[i].message.eventId;
            id in s.dedup.cache.table && Some(s.dedup.cache.table[id].flight) == s.sent[i].flight
  {
    var f := s.sent[i].flight.value;
    assert Chain.SentOk(s, s.sent[i]);
    assert Lifecycle.LifeOk(s.dedup.flights[f].world, s.dedup.flights[f].life) && Dedup.Tracked(s.dedup, f);
  }

  /**
   Under either policy two lifecycles never both have an open invoice for one event, and
   an offer beside an open invoice means the two deliveries were dispatched in different
   modes.
   */
  lemma SecondInvoiceNeedsModeChange(s: Chain.State, i: nat, j: nat)
    requires Chain.Inv(s) && i < |s.sent| && j < |s.sent| && i != j
    requires s.sent[i].message.eventId == s.sent[j].message.eventId && OpenInvoice(s, s.sent[i])
    ensures !OpenInvoice(s, s.sent[j])
    ensures Chain.ChargedByGating(s, s.sent[j]) ==>
              s.sent[i].mode != Some(Chain.ExplicitGating) && s.sent[j].mode == Some(Chain.ExplicitGating)
  {
    assert Chain.SentOk(s, s.sent[i]) && Chain.SentOk(s, s.sent[j]);
    InvoicedFlightIsTracked(s, i);
    if OpenInvoice(s, s.sent[j]) {
      InvoicedFlightIsTracked(s, j);
      assert false;
    }
  }

  lemma TransparentOnlyInvoicesOnce(s: Server.State)
    requires Chain.Inv(s.chain) && Server.Negotiated(s) && s.chain.policy.TransparentOnly?
    ensures InvoicedOnce(s.chain)
  {
    var c := s.chain;
    forall i, j | 0 <= i < |c.sent| && 0 <= j < |c.sent| && i != j
                  && c.sent[i].message.eventId == c.sent[j].message.eventId && OpenInvoice(c, c.sent[i])
      ensures !OpenInvoice(c, c.sent[j]) && !Chain.ChargedByGating(c, c.sent[j])
    {
      SecondInvoiceNeedsModeChange(c, i, j);
    }
  }

  // ---------- Limits that rule out any open invoice ----------

  /** With no room for payments nothing is ever invoiced; with no window nothing stays open. */
  predicate Windowless(l: Chain.Limits) {
    l.maxPending == 0 || l.ttl == 0
  }

  ghost predicate Settings(s: Dedup.State, l: Chain.Limits) {
    && s.maxPending == l.maxPending && s.ttl == l.ttl && (l.maxPending == 0 ==> s.flights == [])
    && (forall f :: 0 <= f < |s.flights| ==> s.flights[f].captured <= s.clock)
  }

  lemma SettingsStep(s: Dedup.State, step: Dedup.Step, l: Chain.Limits)
    requires Settings(s, l) && Dedup.Enabled(s, step)
    ensures Settings(Dedup.Next(s, step), l)
  {
  }

  lemma SettingsServer(s: Server.State, step: Server.Step, l: Chain.Limits)
    requires Settings(s.chain.dedup, l) && Server.Enabled(s, step)
    ensures Settings(Server.Next(s, step).chain.dedup, l)
  {
    if step.OfChain? {
      match step.step
      case OfDedup(d) => SettingsStep(s.chain.dedup, d, l);
      case TransparentHandles(i, now, w) =>
        SettingsStep(s.chain.dedup, Dedup.Deliver(s.chain.sent[i].message.eventId, now, w), l);
      case _ =>
    }
  }

  lemma {:induction false} SettingsRun(s: Server.State, steps: seq<Server.Step>, l: Chain.Limits)
    requires Settings(s.chain.dedup, l) && Server.Executable(s, steps)
    ensures Settings(Server.Exec(s, steps).chain.dedup, l)
    decreases |steps|
  {
    if steps == [] {
    } else {
      SettingsServer(s, steps[0], l);
      SettingsRun(Server.Next(s, steps[0]), steps[1..], l);
    }
  }

  lemma WindowlessInvoicesOnce(s: Chain.State, l: Chain.Limits)
    requires Settings(s.dedup, l) && Windowless(l)
    ensures InvoicedOnce(s)
  {
    forall i | 0 <= i < |s.sent| ensures !OpenInvoice(s, s.sent[i]) {
      if Chain.ChargedTransparently(s, s.sent[i]) {
        assert s.dedup.flights[s.sent[i].flight.value].captured <= s.dedup.clock;
      }
    }
  }

  // ---------- Reachable states ----------

  ghost predicate Reachable(policy: Chain.Policy, l: Chain.Limits, s: Server.State) {
    exists steps :: Server.Executable(Server.Init(policy, l), steps) && Server.Exec(Server.Init(policy, l), steps) == s
  }

  lemma {:induction false} Extend(s: Server.State, steps: seq<Server.Step>, last: Server.Step)
    requires Server.Executable(s, steps) && Server.Enabled(Server.Exec(s, steps), last)
    ensures Server.Executable(s, steps + [last])
    ensures Server.Exec(s, steps + [last]) == Server.Next(Server.Exec(s, steps), last)
    decreases |steps|
  {
    var all := steps + [last];
    if steps == [] {
      assert all == [last] && all[1..] == [];
      assert Server.Executable(Server.Next(s, last), []);
    } else {
      assert all[0] == steps[0] && all[1..] == steps[1..] + [last];
      Extend(Server.Next(s, steps[0]), steps[1..], last);
    }
  }

  lemma Reach(policy: Chain.Policy, l: Chain.Limits, s: Server.State, step: Server.Step) returns (s': Server.State)
    requires Reachable(policy, l, s) && Server.Enabled(s, step)
    ensures s' == Server.Next(s, step) && Reachable(policy, l, s')
  {
    var steps :| Server.Executable(Server.Init(policy, l), steps) && Server.Exec(Server.Init(policy, l), steps) == s;
    Extend(Server.Init(policy, l), steps, step);
    s' := Server.Next(s, step);
  }

  lemma ReachableIsSound(policy: Chain.Policy, l: Chain.Limits, s: Server.State)
    requires Reachable(policy, l, s)
    ensures Chain.Inv(s.chain) && Server.Negotiated(s) && s.chain.policy == policy && Settings(s.chain.dedup, l)
  {
    var steps :| Server.Executable(Server.Init(policy, l), steps) && Server.Exec(Server.Init(policy, l), steps) == s;
    Server.RunIsSound(policy, l, steps);
    SettingsRun(Server.Init(policy, l), steps, l);
  }

  // ---------- The run that invoices twice ----------

  /** A lifecycle that publishes its invoice and waits for the payment. */
  const INVOICING := Lifecycle.World(
    Lifecycle.Required, true, Lifecycle.PublishOk, true, Lifecycle.PublishOk,
    Lifecycle.VerifyOk, true, Lifecycle.PublishOk, Lifecycle.Delivers)

  const INVOICED := Lifecycle.Life(Lifecycle.Verifying, true, true, false, false, 0)

  const PLAIN := Server.Inbound(None, true, false)
  const SWITCH := Server.Inbound(Some("explicit_gating"), false, false)

  /** The lifecycle of the first delivery, begun at instant zero, has come as far as `life`. */
  ghost predicate Underway(d: Dedup.State, m: Chain.Message, l: Chain.Limits, life: Lifecycle.Life) {
    && d.flights == [Dedup.Flight(m.eventId, 0, 0, INVOICING, life)]
    && d.clock == 0 && d.ttl == l.ttl
  }

  function First(m: Chain.Message): (d: Chain.Dispatched) {
    Chain.Dispatched(Some(Chain.Transparent), m, Some(0), None, Chain.AwaitingFlight)
  }

  function Second(m: Chain.Message, task: Option<nat>, stage: Chain.Stage): (d: Chain.Dispatched) {
    Chain.Dispatched(Some(Chain.ExplicitGating), m, None, task, stage)
  }

  lemma FirstDeliveryStarts(l: Chain.Limits, m: Chain.Message)
    requires 0 < l.maxPending
    ensures Underway(Dedup.Next(Dedup.Init(l.maxPending, l.ttl), Dedup.Deliver(m.eventId, 0, INVOICING)),
                     m, l, Lifecycle.START)
  {
  }

  /** The first delivery became a lifecycle, in a session of the default mode. */
  ghost predicate FirstUnderway(s: Server.State, client: Key, m: Chain.Message, l: Chain.Limits, life: Lifecycle.Life) {
    && s.chain.policy.Optional? && client in s.sessions && s.sessions[client] == Server.FRESH
    && s.chain.sent == [First(m)] && Underway(s.chain.dedup, m, l, life)
    && s.chain.gating == Gating.Init(l.maxEntries)
  }

  lemma FirstDelivery(client: Key, m: Chain.Message, l: Chain.Limits) returns (s: Server.State)
    requires m.isRequest && m.priced && 0 < l.maxPending
    ensures Reachable(Chain.Optional, l, s) && FirstUnderway(s, client, m, l, Lifecycle.START)
  {
    s := Server.Init(Chain.Optional, l);
    assert Server.Executable(s, []) && Server.Exec(s, []) == s;
    s := Reach(Chain.Optional, l, s, Server.Receive(client, PLAIN, m));
    FirstDeliveryStarts(l, m);
    s := Reach(Chain.Optional, l, s, Server.OfChain(Chain.TransparentHandles(0, 0, INVOICING)));
  }

  lemma FirstInvoice(client: Key, m: Chain.Message, l: Chain.Limits) returns (s: Server.State)
    requires m.isRequest && m.priced && 0 < l.maxPending
    ensures Reachable(Chain.Optional, l, s) && FirstUnderway(s, client, m, l, INVOICED)
  {
    s := FirstDelivery(client, m, l);
    s := Reach(Chain.Optional, l, s, Server.OfChain(Chain.OfDedup(Dedup.Progress(0))));
    s := Reach(Chain.Optional, l, s, Server.OfChain(Chain.OfDedup(Dedup.Progress(0))));
  }

  /** The first invoice is open, and the second delivery is as far as `d`, in a chain whose handlers are `tasks`. */
  ghost predicate SecondUnderway(
    s: Server.State, m: Chain.Message, l: Chain.Limits, d: Chain.Dispatched, tasks: seq<Gating.Task>) {
    && s.chain.policy.Optional? && s.chain.sent == [First(m), d] && Underway(s.chain.dedup, m, l, INVOICED)
    && s.chain.gating.tasks == tasks
  }

  lemma SecondDelivery(client: Key, m: Chain.Message, l: Chain.Limits) returns (s: Server.State)
    requires m.isRequest && m.priced && 0 < l.maxPending
    ensures Reachable(Chain.Optional, l, s)
    ensures SecondUnderway(s, m, l, Second(m, None, Chain.AtTransparent), [])
    ensures s.chain.gating == Gating.Init(l.maxEntries)
  {
    s := FirstInvoice(client, m, l);
    s := Reach(Chain.Optional, l, s, Server.ReceiveFrame(client, SWITCH));
    s := Reach(Chain.Optional, l, s, Server.Receive(client, PLAIN, m));
  }

  lemma SecondHandler(client: Key, m: Chain.Message, k: Key, l: Chain.Limits) returns (s: Server.State)
    requires m.isRequest && m.priced && m.identity == Some(k) && 0 < l.maxPending
    ensures Reachable(Chain.Optional, l, s)
    ensures SecondUnderway(s, m, l, Second(m, Some(0), Chain.AwaitingTask), [Gating.Task(k, Gating.Entering, false)])
    ensures s.chain.gating.store == Gating.Init(l.maxEntries).store
  {
    s := SecondDelivery(client, m, l);
    s := Reach(Chain.Optional, l, s, Server.OfChain(Chain.TransparentHandles(1, 0, INVOICING)));
    s := Reach(Chain.Optional, l, s, Server.OfChain(Chain.GatingHandles(1)));
  }

  /** A handler step moves the one handler and nothing else. */
  lemma HandlerSteps(
    s: Server.State, m: Chain.Message, l: Chain.Limits, d: Chain.Dispatched, t: Gating.Task, g: Gating.Step, t': Gating.Task)
    returns (s': Server.State)
    requires Reachable(Chain.Optional, l, s)
    requires SecondUnderway(s, m, l, d, [t]) && Gating.OfHandler(g) && Gating.Enabled(s.chain.gating, g)
    requires Gating.Next(s.chain.gating, g).tasks == [t']
    ensures Reachable(Chain.Optional, l, s') && SecondUnderway(s', m, l, d, [t'])
  {
    s' := Reach(Chain.Optional, l, s, Server.OfChain(Chain.OfGating(g)));
  }

  lemma SecondCycle(client: Key, m: Chain.Message, k: Key, l: Chain.Limits) returns (s: Server.State)
    requires m.isRequest && m.priced && m.identity == Some(k) && 0 < l.maxPending
    ensures Reachable(Chain.Optional, l, s)
    ensures SecondUnderway(s, m, l, Second(m, Some(0), Chain.AwaitingTask), [Gating.Task(k, Gating.Retiming(l.ttl), false)])
  {
    var d := Second(m, Some(0), Chain.AwaitingTask);
    s := SecondHandler(client, m, k, l);
    s := HandlerSteps(s, m, l, d, Gating.Task(k, Gating.Entering, false), Gating.Enter(0, 0, l.ttl),
                      Gating.Task(k, Gating.Initiating, false));
    s := HandlerSteps(s, m, l, d, Gating.Task(k, Gating.Initiating, false),
                      Gating.Initiate(0, Gating.Required(l.ttl)), Gating.Task(k, Gating.Retiming(l.ttl), false));
  }

  lemma SecondOffer(client: Key, m: Chain.Message, k: Key, l: Chain.Limits) returns (s: Server.State)
    requires m.isRequest && m.priced && m.identity == Some(k) && 0 < l.maxPending
    ensures Reachable(Chain.Optional, l, s)
    ensures SecondUnderway(s, m, l, Second(m, Some(0), Chain.AwaitingTask), [Gating.Task(k, Gating.Spawning(l.ttl), true)])
  {
    var d := Second(m, Some(0), Chain.AwaitingTask);
    s := SecondCycle(client, m, k, l);
    s := HandlerSteps(s, m, l, d, Gating.Task(k, Gating.Retiming(l.ttl), false), Gating.Retime(0, 0),
                      Gating.Task(k, Gating.Publishing(l.ttl), false));
    s := HandlerSteps(s, m, l, d, Gating.Task(k, Gating.Publishing(l.ttl), false),
                      Gating.Offer(0, Gating.Delivered), Gating.Task(k, Gating.Spawning(l.ttl), true));
  }

  /**
   For every priced event with an identity, on every server with both middlewares, room
   for a payment and a window: redelivering it after its session switched to gating
   invoices it twice, the first invoice still open.
   */
  lemma RedeliveryInvoicesTwice(client: Key, m: Chain.Message, l: Chain.Limits) returns (s: Server.State)
    requires m.isRequest && m.priced && m.identity.Some? && !Windowless(l)
    ensures Reachable(Chain.Optional, l, s) && |s.chain.sent| == 2
    ensures s.chain.sent[0].message == s.chain.sent[1].message == m
    ensures OpenInvoice(s.chain, s.chain.sent[0]) && Chain.ChargedByGating(s.chain, s.chain.sent[1])
  {
    s := SecondOffer(client, m, m.identity.value, l);
  }

  /**
   The exact condition: in every reachable state, while an invoice for an event is open no
   other delivery of that event is invoiced or offered, if and only if the server
   registered no gating middleware, or its limits leave no invoice open in the first
   place.
   */
  lemma InvoicedOnceIff(policy: Chain.Policy, l: Chain.Limits)
    ensures (forall s :: Reachable(policy, l, s) ==> InvoicedOnce(s.chain)) <==> policy.TransparentOnly? || Windowless(l)
  {
    if policy.TransparentOnly? || Windowless(l) {
      forall s | Reachable(policy, l, s) ensures InvoicedOnce(s.chain) {
        ReachableIsSound(policy, l, s);
        if Windowless(l) {
          WindowlessInvoicesOnce(s.chain, l);
        } else {
          TransparentOnlyInvoicesOnce(s);
        }
      }
    } else {
      var m := Chain.Message(true, true, Key("event"), Some(Key("identity")));
      var s := RedeliveryInvoicesTwice(Key("client"), m, l);
      assert !InvoicedOnce(s.chain);
    }
  }
}
